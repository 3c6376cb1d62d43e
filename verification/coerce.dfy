/**
 * Type checking and conversion of an option value (`Option.prototype.validateType`).
 * The type name is compared case-insensitively; `int`/`integer` and
 * `number`/`float`/`double` are checked against a regular expression, and
 * every other type name passes the token through unchanged.
 */
module Coerce {
  import opened Wrappers
  import opened Values

  datatype Kind = IntKind | FloatKind | TextKind

  /**
   * ASCII lower-casing. Of the characters JavaScript's `toLowerCase` maps
   * onto an ASCII letter, only `A`-`Z` and the Kelvin sign (to `k`) exist,
   * and `k` occurs in none of the type names compared below.
   */
  function LowerChar(c: char): char {
    if 'A' <= c <= 'Z' then (c as int + 32) as char else c
  }

  function Lower(s: string): (r: string)
    ensures |r| == |s|
    ensures forall i :: 0 <= i < |s| ==> r[i] == LowerChar(s[i])
  {
    seq(|s|, i requires 0 <= i < |s| => LowerChar(s[i]))
  }

  /** The branch of the `switch` on `type.toLowerCase()` that a type name selects. */
  function KindOf(typeName: string): (k: Kind)
    ensures k == IntKind <==> Lower(typeName) in {"integer", "int"}
    ensures k == FloatKind <==> Lower(typeName) in {"number", "float", "double"}
  {
    var t := Lower(typeName);
    if t == "integer" || t == "int" then IntKind
    else if t == "number" || t == "float" || t == "double" then FloatKind
    else TextKind
  }

  predicate IsSign(c: char) {
    c == '-' || c == '+'
  }

  /** The text matched by `[-+]?`. */
  predicate OptionalSign(p: string) {
    p == [] || (|p| == 1 && IsSign(p[0]))
  }

  /** The text matched by `([\.,][0-9]+)?`. */
  predicate OptionalFraction(f: string) {
    f == [] || (|f| >= 2 && (f[0] == '.' || f[0] == ',') && AllDigits(f[1..]))
  }

  /** `/^[-+]?[0-9]+$/.test(s)`: some split of `s` into a sign part and a non-empty digit part. */
  ghost predicate IntRegex(s: string) {
    exists k :: 0 <= k < |s| && OptionalSign(s[..k]) && AllDigits(s[k..])
  }

  /** `/^[-+]?[0-9]*([\.,][0-9]+)?$/.test(s)`: some split into sign, digits and fraction. */
  ghost predicate NumberRegex(s: string) {
    exists k, m :: 0 <= k <= m <= |s| && OptionalSign(s[..k]) && AllDigits(s[k..m]) && OptionalFraction(s[m..])
  }

  /** Length of the sign `s` starts with (0 or 1). */
  function SignLength(s: string): nat {
    if |s| > 0 && IsSign(s[0]) then 1 else 0
  }

  /** A deterministic, left-to-right reading of the integer pattern. */
  predicate IntSyntax(s: string) {
    var k := SignLength(s);
    k < |s| && AllDigits(s[k..])
  }

  /** A deterministic, left-to-right reading of the number pattern: sign, longest digit run, fraction. */
  predicate NumberSyntax(s: string) {
    var k := SignLength(s);
    var m := k + DigitRun(s[k..]);
    OptionalFraction(s[m..])
  }

  lemma IntSyntaxIsRegex(s: string)
    ensures IntSyntax(s) <==> IntRegex(s)
  {
    if IntRegex(s) {
      var k :| 0 <= k < |s| && OptionalSign(s[..k]) && AllDigits(s[k..]);
    }
    if IntSyntax(s) {
      var k := SignLength(s);
      assert OptionalSign(s[..k]);
    }
  }

  /** The sign part of any match of the number pattern is the one `SignLength` reads. */
  lemma NumberSignIsDetermined(s: string, k: nat, m: nat)
    requires k <= m <= |s| && OptionalSign(s[..k]) && AllDigits(s[k..m]) && OptionalFraction(s[m..])
    ensures k == SignLength(s)
  {
  }

  /** The digit part of any match of the number pattern is the longest digit run. */
  lemma NumberDigitsAreDetermined(t: string, j: nat)
    requires j <= |t| && AllDigits(t[..j]) && OptionalFraction(t[j..])
    ensures j == DigitRun(t)
  {
    if j < |t| {
      assert t[j..][0] == t[j];
    }
    DigitRunIsFirstNonDigit(t, j);
  }

  /** A digit prefix followed by a non-digit (or the end) is the longest digit run. */
  lemma {:induction false} DigitRunIsFirstNonDigit(s: string, j: nat)
    requires j <= |s| && AllDigits(s[..j]) && (j < |s| ==> !IsDigit(s[j]))
    ensures DigitRun(s) == j
    decreases j
  {
    if j > 0 {
      assert s[..j][0] == s[0];
      assert s[1..][..j - 1] == s[..j][1..];
      DigitRunIsFirstNonDigit(s[1..], j - 1);
    }
  }

  lemma NumberSyntaxIsRegex(s: string)
    ensures NumberSyntax(s) <==> NumberRegex(s)
  {
    if NumberSyntax(s) {
      NumberSyntaxMatches(s);
    }
    if NumberRegex(s) {
      NumberMatchIsSyntax(s);
    }
  }

  lemma NumberSyntaxMatches(s: string)
    requires NumberSyntax(s)
    ensures NumberRegex(s)
  {
    var k := SignLength(s);
    var m := k + DigitRun(s[k..]);
    assert s[k..m] == s[k..][..DigitRun(s[k..])];
    assert OptionalSign(s[..k]);
  }

  lemma NumberMatchIsSyntax(s: string)
    requires NumberRegex(s)
    ensures NumberSyntax(s)
  {
    var k', m' :| 0 <= k' <= m' <= |s| && OptionalSign(s[..k']) && AllDigits(s[k'..m']) && OptionalFraction(s[m'..]);
    NumberSignIsDetermined(s, k', m');
    var k := SignLength(s);
    assert s[k..][..m' - k] == s[k..m'] && s[k..][m' - k..] == s[m'..];
    NumberDigitsAreDetermined(s[k..], m' - k);
  }

  /** Value of a string of decimal digits. */
  function DigitsValue(d: string): nat
    requires AllDigits(d)
  {
    if d == [] then 0 else DigitsValue(d[..|d| - 1]) * 10 + (d[|d| - 1] as int - '0' as int)
  }

  /** `parseInt` of a text matching the integer pattern. */
  function IntValue(s: string): int
    requires IntSyntax(s)
  {
    var k := SignLength(s);
    var n: int := DigitsValue(s[k..]);
    if k == 1 && s[0] == '-' then -n else n
  }

  /** 2 to the power `k`. */
  function Pow2(k: nat): (r: nat)
    ensures r >= 1
  {
    if k == 0 then 1 else 2 * Pow2(k - 1)
  }

  /** The number of binary digits of `a` (0 for 0). */
  function BitLength(a: nat): nat {
    if a == 0 then 0 else 1 + BitLength(a / 2)
  }

  lemma {:induction false} BitLengthAtLeast(a: nat, k: nat)
    requires a >= Pow2(k)
    ensures BitLength(a) >= k + 1
    decreases k
  {
    if k > 0 {
      BitLengthAtLeast(a / 2, k - 1);
    }
  }

  /** 2^53: every integer of at most this magnitude is a double. */
  const MaxSafe: int := 9007199254740992

  lemma {:induction false} Pow2Add(a: nat, b: nat)
    ensures Pow2(a + b) == Pow2(a) * Pow2(b)
    decreases a
  {
    if a > 0 {
      Pow2Add(a - 1, b);
    }
  }

  lemma MaxSafeIsPow2()
    ensures Pow2(53) == MaxSafe
  {
    assert Pow2(4) == 16 && Pow2(5) == 32;
    Pow2Add(4, 4);
    Pow2Add(8, 8);
    Pow2Add(16, 16);
    Pow2Add(32, 16);
    Pow2Add(48, 5);
  }

  /** `a` rounded to the nearest multiple of `unit`, a tie going to the even multiple. */
  function RoundToUnit(a: nat, unit: nat): (r: nat)
    requires unit >= 1
    ensures 2 * (r - a) <= unit && 2 * (a - r) <= unit
  {
    var q, rem := a / unit, a % unit;
    assert a == q * unit + rem && 0 <= rem < unit;
    assert (q + 1) * unit == q * unit + unit;
    if 2 * rem > unit || (2 * rem == unit && q % 2 == 1) then (q + 1) * unit else q * unit
  }

  function Abs(n: int): nat {
    if n < 0 then -n else n
  }

  /** `b` lies within half a `unit` of `a`. */
  predicate WithinHalfUnit(a: int, b: int, unit: nat) {
    2 * (b - a) <= unit && 2 * (a - b) <= unit
  }

  /**
   * The number `parseInt` yields for the integer `n`. It is a double: `n`
   * itself up to 2^53 in magnitude, and beyond that the nearest multiple of
   * 2^(b - 53), where `b` is the number of binary digits of `|n|`.
   */
  function NearestDouble(n: int): (r: int)
    ensures -MaxSafe <= n <= MaxSafe ==> r == n
    ensures Abs(n) > MaxSafe ==> BitLength(Abs(n)) >= 53 && WithinHalfUnit(Abs(n), Abs(r), Pow2(BitLength(Abs(n)) - 53))
    ensures (n < 0 <==> r < 0) || (n < 0 && r == 0)
  {
    var a := Abs(n);
    var m: int := if a <= MaxSafe then a else RoundLarge(a);
    assert Abs(if n < 0 then -m else m) == m;
    if n < 0 then -m else m
  }

  /** A magnitude above 2^53 rounded to the 53 significant bits a double keeps. */
  function RoundLarge(a: nat): (r: nat)
    requires a > MaxSafe
    ensures BitLength(a) >= 53
    ensures WithinHalfUnit(a, r, Pow2(BitLength(a) - 53))
  {
    MaxSafeIsPow2();
    BitLengthAtLeast(a, 53);
    RoundToUnit(a, Pow2(BitLength(a) - 53))
  }

  function TypeMessage(token: string, typeName: string): string {
    "Option with " + token + " wasn't of type " + typeName
  }

  /**
   * `option.validateType(token)`. Integers are converted; accepted floats
   * keep their text; any other type name returns the token as a string.
   */
  function ValidateType(typeName: string, token: string): (r: Outcome<Value>)
    ensures KindOf(typeName) == TextKind ==> r == Ok(Str(token))
    ensures KindOf(typeName) == IntKind ==> (r.Ok? <==> IntRegex(token))
    ensures KindOf(typeName) == IntKind && r.Ok? ==> r.value == Int(NearestDouble(IntValue(token)))
    ensures KindOf(typeName) == FloatKind ==> (r.Ok? <==> NumberRegex(token))
    ensures KindOf(typeName) == FloatKind && r.Ok? ==> r.value == Num(token)
    ensures r.Err? ==> r.error == Admiral(TypeMessage(token, typeName))
  {
    IntSyntaxIsRegex(token);
    NumberSyntaxIsRegex(token);
    match KindOf(typeName)
    case IntKind =>
      if IntSyntax(token) then Ok(Int(NearestDouble(IntValue(token)))) else Err(Admiral(TypeMessage(token, typeName)))
    case FloatKind =>
      if NumberSyntax(token) then Ok(Num(token)) else Err(Admiral(TypeMessage(token, typeName)))
    case TextKind =>
      Ok(Str(token))
  }

  lemma {:induction false} DigitsValueOfNat(n: nat)
    ensures DigitsValue(NatToString(n)) == n
    decreases n
  {
    var s := NatToString(n);
    if n >= 10 {
      DigitsValueOfNat(n / 10);
      assert s[..|s| - 1] == NatToString(n / 10);
    }
  }

  /** Reading an integer's decimal text gives the integer back. */
  lemma IntValueOfDecimal(n: int)
    ensures IntSyntax(IntToString(n)) && IntValue(IntToString(n)) == n
  {
    var s := IntToString(n);
    if n < 0 {
      assert s[1..] == NatToString(-n);
      DigitsValueOfNat(-n);
    } else {
      DigitsValueOfNat(n);
      assert s[0..] == s;
    }
  }

  /**
   * Every integer of at most 2^53 in magnitude, written in decimal, is
   * accepted by an `int` option and converted back to itself.
   */
  lemma IntRoundTrip(n: int, typeName: string)
    requires Lower(typeName) in {"integer", "int"}
    requires -MaxSafe <= n <= MaxSafe
    ensures ValidateType(typeName, IntToString(n)) == Ok(Int(n))
  {
    IntValueOfDecimal(n);
    IntSyntaxIsRegex(IntToString(n));
  }

  lemma {:induction false} BitLengthBelow(a: nat, k: nat)
    requires a < Pow2(k)
    ensures BitLength(a) <= k
    decreases k
  {
    if k > 0 && a > 0 {
      BitLengthBelow(a / 2, k - 1);
    }
  }

  /**
   * Above 2^53 the value is rounded to a double: the text of 2^53 + 1
   * (`9007199254740993`) reads as 2^53.
   */
  lemma LargeIntIsRounded(typeName: string)
    requires Lower(typeName) in {"integer", "int"}
    ensures ValidateType(typeName, IntToString(MaxSafe + 1)) == Ok(Int(MaxSafe))
  {
    var n := MaxSafe + 1;
    IntValueOfDecimal(n);
    IntSyntaxIsRegex(IntToString(n));
    MaxSafeIsPow2();
    Pow2Add(53, 1);
    BitLengthAtLeast(n, 53);
    BitLengthBelow(n, 54);
    assert Pow2(BitLength(n) - 53) == 2;
    assert RoundToUnit(n, 2) == 9007199254740992;
  }

  /** Zeros in front of a digit string do not change its value. */
  lemma {:induction false} LeadingZerosIgnored(z: string, d: string)
    requires AllDigits(d) && forall j :: 0 <= j < |z| ==> z[j] == '0'
    ensures AllDigits(z + d) && DigitsValue(z + d) == DigitsValue(d)
    decreases |d|
  {
    if d == [] {
      assert z + d == z;
      ZerosAreZero(z);
    } else {
      assert (z + d)[..|z + d| - 1] == z + d[..|d| - 1];
      LeadingZerosIgnored(z, d[..|d| - 1]);
    }
  }

  lemma {:induction false} ZerosAreZero(z: string)
    requires forall j :: 0 <= j < |z| ==> z[j] == '0'
    ensures AllDigits(z) && DigitsValue(z) == 0
    decreases |z|
  {
    if z != [] {
      ZerosAreZero(z[..|z| - 1]);
    }
  }

  /**
   * A sign and leading zeros are accepted by an `int` option and read as
   * `parseInt` reads them: `+007` is 7 and `-007` is -7.
   */
  lemma SignAndZerosRead(typeName: string, sign: char, z: string, n: nat)
    requires Lower(typeName) in {"integer", "int"}
    requires IsSign(sign) && forall j :: 0 <= j < |z| ==> z[j] == '0'
    requires n <= MaxSafe
    ensures ValidateType(typeName, [sign] + z + NatToString(n)) == Ok(Int(if sign == '-' then -(n as int) else n))
  {
    var t := [sign] + z + NatToString(n);
    DigitsValueOfNat(n);
    LeadingZerosIgnored(z, NatToString(n));
    assert t[0] == sign && t[1..] == z + NatToString(n);
    assert SignLength(t) == 1 && IntSyntax(t);
    assert IntValue(t) == if sign == '-' then -(n as int) else n;
    IntSyntaxIsRegex(t);
  }

  /** A fractional number written with a comma is accepted by the number types but not by `int`. */
  lemma CommaDecimalIsNumberNotInt()
    ensures ValidateType("number", "12,5") == Ok(Num("12,5"))
    ensures ValidateType("int", "12,5").Err?
  {
    NumberSyntaxIsRegex("12,5");
    assert DigitRun("12,5") == 2;
  }
}
