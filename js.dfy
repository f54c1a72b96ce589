/**
 * The few JavaScript run-time behaviours the application relies on:
 * optional values, truthiness, `Number.prototype.toString` on integers and
 * the global `parseInt` with no radix argument.
 */
module Js {

  datatype Option<+T> = None | Some(value: T) {
    function GetOr(default: T): T {
      match this
      case Some(v) => v
      case None => default
    }
  }

  datatype Result<+T, +E> = Success(value: T) | Failure(error: E)

  /** A string is truthy in JavaScript exactly when it is not empty. */
  predicate TruthyString(s: Option<string>) {
    s.Some? && s.value != ""
  }

  /** A number is truthy when it is neither 0 nor NaN (NaN is not an `int` here). */
  predicate TruthyInt(n: Option<int>) {
    n.Some? && n.value != 0
  }

  /** `value || null` for an optional string: the empty string becomes null. */
  function OrNull(s: Option<string>): (r: Option<string>)
    ensures r.Some? <==> TruthyString(s)
    ensures r.Some? ==> r == s
  {
    if TruthyString(s) then s else None
  }

  /** `${value}` for an optional string: a missing value prints as "undefined". */
  function Interpolate(s: Option<string>): string {
    if s.Some? then s.value else "undefined"
  }

  /**
   * Keys every plain JavaScript object inherits from Object.prototype: a
   * lookup `table[key]` finds them even in a table that does not list them.
   */
  const INHERITED_KEYS: set<string> := {
    "constructor", "hasOwnProperty", "isPrototypeOf", "propertyIsEnumerable", "toLocaleString",
    "toString", "valueOf", "__proto__", "__defineGetter__", "__defineSetter__",
    "__lookupGetter__", "__lookupSetter__"}

  // ---------------------------------------------------------------------
  // Decimal rendering of integers (template literals and `toString()`)
  // ---------------------------------------------------------------------

  predicate IsDecimalDigit(c: char) {
    '0' <= c <= '9'
  }

  function DigitChar(d: nat): (c: char)
    requires d < 10
    ensures IsDecimalDigit(c) && DigitValue(c) == d
  {
    ('0' as int + d) as char
  }

  /** The decimal representation of `n`, without leading zeros. */
  function NatToString(n: nat): (s: string)
    ensures |s| >= 1
    ensures forall i :: 0 <= i < |s| ==> IsDecimalDigit(s[i])
    ensures n > 0 ==> s[0] != '0'
    ensures n < 10 ==> |s| == 1
    decreases n
  {
    if n < 10 then [DigitChar(n)] else NatToString(n / 10) + [DigitChar(n % 10)]
  }

  /** A run of decimal digits with no leading zero, except for "0" itself. */
  predicate IsNumeral(d: string) {
    && d != []
    && (forall i :: 0 <= i < |d| ==> IsDecimalDigit(d[i]))
    && (d[0] == '0' ==> |d| == 1)
  }

  /**
   * How JavaScript prints an integral number: a minus sign exactly for a
   * negative number, then the numeral of its magnitude.
   */
  function IntToString(n: int): (s: string)
    ensures |s| >= 1
    ensures s[0] == '-' <==> n < 0
    ensures n >= 0 ==> IsNumeral(s) && DigitsValue(s, 10) == n
    ensures n < 0 ==> IsNumeral(s[1..]) && DigitsValue(s[1..], 10) == -n
  {
    DigitsValueOfNatToString(if n < 0 then -n else n);
    if n < 0 then "-" + NatToString(-n) else NatToString(n)
  }

  // ---------------------------------------------------------------------
  // parseInt(string) with the radix left out
  // ---------------------------------------------------------------------

  /** The result of `parseInt`: an integer or NaN. */
  datatype ParsedNumber = Num(n: int) | NaN {
    /** NaN and 0 (also -0) are the falsy numbers. */
    predicate Truthy() {
      Num? && n != 0
    }
  }

  /** The white space and line terminators `parseInt` skips at the front. */
  predicate IsJsWhitespace(c: char) {
    var k := c as int;
    k == 0x09 || k == 0x0A || k == 0x0B || k == 0x0C || k == 0x0D || k == 0x20 ||
    k == 0xA0 || k == 0x1680 || (0x2000 <= k <= 0x200A) || k == 0x2028 || k == 0x2029 ||
    k == 0x202F || k == 0x205F || k == 0x3000 || k == 0xFEFF
  }

  /** The value of a digit character in radix 36, or 36 for a non-digit. */
  function DigitValue(c: char): (d: nat)
    ensures d <= 36
  {
    if '0' <= c <= '9' then c as int - '0' as int
    else if 'a' <= c <= 'z' then c as int - 'a' as int + 10
    else if 'A' <= c <= 'Z' then c as int - 'A' as int + 10
    else 36
  }

  predicate IsDigitIn(c: char, radix: nat) {
    DigitValue(c) < radix
  }

  /** What is left of `s` once its leading white space is dropped. */
  function SkipWhitespace(s: string): (r: string)
    ensures |r| <= |s| && r == s[|s| - |r|..]
    ensures forall c :: c in s[..|s| - |r|] ==> IsJsWhitespace(c)
    ensures r != [] ==> !IsJsWhitespace(r[0])
  {
    if s != [] && IsJsWhitespace(s[0]) then SkipWhitespace(s[1..]) else s
  }

  /** White space in front of a string does not change what is left after skipping. */
  lemma {:induction false} SkipWhitespaceDropsPrefix(ws: string, t: string)
    requires forall i :: 0 <= i < |ws| ==> IsJsWhitespace(ws[i])
    ensures SkipWhitespace(ws + t) == SkipWhitespace(t)
    decreases |ws|
  {
    if ws != [] {
      assert (ws + t)[0] == ws[0];
      assert (ws + t)[1..] == ws[1..] + t;
      SkipWhitespaceDropsPrefix(ws[1..], t);
    } else {
      assert ws + t == t;
    }
  }

  /** The longest prefix of `s` made of digits of the given radix. */
  function LeadingDigits(s: string, radix: nat): (r: string)
    ensures |r| <= |s| && r == s[..|r|]
    ensures forall i :: 0 <= i < |r| ==> IsDigitIn(r[i], radix)
  {
    if s != [] && IsDigitIn(s[0], radix) then [s[0]] + LeadingDigits(s[1..], radix) else []
  }

  /** The value of a digit string extended by one more digit on the right. */
  function AppendDigit(high: nat, radix: nat, digit: nat): nat {
    high * radix + digit
  }

  /** The value of a digit string, most significant digit first. */
  function DigitsValue(s: string, radix: nat): nat
    requires forall i :: 0 <= i < |s| ==> IsDigitIn(s[i], radix)
  {
    if s == [] then 0
    else AppendDigit(DigitsValue(s[..|s| - 1], radix), radix, DigitValue(s[|s| - 1]))
  }

  /**
   * The part of `parseInt` after the sign: switch to radix 16 after a
   * "0x"/"0X" prefix, then read the longest run of digits; NaN when there is
   * none. Trailing characters are ignored.
   */
  function ParseMagnitude(u: string): (r: ParsedNumber)
    ensures r.Num? ==> r.n >= 0
  {
    var hex := |u| >= 2 && u[0] == '0' && (u[1] == 'x' || u[1] == 'X');
    var radix := if hex then 16 else 10;
    var digits := LeadingDigits(if hex then u[2..] else u, radix);
    if digits == [] then NaN else Num(DigitsValue(digits, radix))
  }

  /**
   * `parseInt(s)`: skip leading white space, take an optional sign, then read
   * the magnitude.
   */
  function ParseInt(s: string): (r: ParsedNumber)
  {
    ParseSigned(SkipWhitespace(s))
  }

  /** The part of `parseInt` after the white space: an optional sign, then the magnitude. */
  function ParseSigned(t: string): (r: ParsedNumber)
  {
    if t != [] && t[0] == '-' then
      match ParseMagnitude(t[1..])
      case Num(v) => Num(-v)
      case NaN => NaN
    else if t != [] && t[0] == '+' then ParseMagnitude(t[1..])
    else ParseMagnitude(t)
  }

  // ---------------------------------------------------------------------
  // Round trip: parseInt reads back what toString wrote
  // ---------------------------------------------------------------------

  lemma {:induction false} DigitsValueOfNatToString(n: nat)
    ensures DigitsValue(NatToString(n), 10) == n
    decreases n
  {
    var s := NatToString(n);
    if n >= 10 {
      DigitsValueOfNatToString(n / 10);
      assert s[..|s| - 1] == NatToString(n / 10);
    }
  }

  lemma {:induction false} LeadingDigitsStopAt(s: string, t: string, radix: nat)
    requires forall i :: 0 <= i < |s| ==> IsDigitIn(s[i], radix)
    requires t == [] || !IsDigitIn(t[0], radix)
    ensures LeadingDigits(s + t, radix) == s
    decreases |s|
  {
    if s != [] {
      assert (s + t)[1..] == s[1..] + t;
      LeadingDigitsStopAt(s[1..], t, radix);
    } else {
      assert s + t == t;
    }
  }

  /** A decimal string with no "0x" prefix reads back as its value. */
  lemma ParseMagnitudeOfDigits(n: nat, rest: string)
    requires rest == [] || !IsDigitIn(rest[0], 10)
    requires n > 0 || rest == [] || (rest[0] != 'x' && rest[0] != 'X')
    ensures ParseMagnitude(NatToString(n) + rest) == Num(n)
  {
    var d := NatToString(n);
    var s := d + rest;
    assert s[0] == d[0];
    assert !(|s| >= 2 && s[0] == '0' && (s[1] == 'x' || s[1] == 'X')) by {
      if |s| >= 2 && s[0] == '0' {
        assert n == 0;
        assert |d| == 1 && s[1] == rest[0];
      }
    }
    LeadingDigitsStopAt(d, rest, 10);
    DigitsValueOfNatToString(n);
  }

  /** `parseInt(String(n))` gives back `n` for every integer `n`. */
  lemma ParseIntOfIntToString(n: int)
    ensures ParseInt(IntToString(n)) == Num(n)
  {
    var m := if n < 0 then -n else n;
    var s := IntToString(n);
    assert SkipWhitespace(s) == s by {
      assert !IsJsWhitespace(s[0]);
    }
    ParseMagnitudeOfDigits(m, []);
    assert NatToString(m) + [] == NatToString(m);
    if n < 0 {
      assert s[1..] == NatToString(m);
    }
  }

  /** Digits followed by other text: parseInt stops at the first non-digit. */
  lemma ParseIntIgnoresTrailingText(n: nat, rest: string)
    requires rest == [] || !IsDigitIn(rest[0], 10)
    requires n > 0 || rest == [] || (rest[0] != 'x' && rest[0] != 'X')
    ensures ParseInt(NatToString(n) + rest) == Num(n)
  {
    var s := NatToString(n) + rest;
    assert s[0] == NatToString(n)[0];
    assert SkipWhitespace(s) == s;
    ParseMagnitudeOfDigits(n, rest);
  }

  /** `parseInt` reads past leading white space: `parseInt(ws + t) == parseInt(t)`. */
  lemma ParseIntIgnoresLeadingWhitespace(ws: string, t: string)
    requires forall i :: 0 <= i < |ws| ==> IsJsWhitespace(ws[i])
    ensures ParseInt(ws + t) == ParseInt(t)
  {
    SkipWhitespaceDropsPrefix(ws, t);
  }

  /** A printed integer after any white space, such as " 42", reads back as that integer. */
  lemma ParseIntOfPaddedNumber(ws: string, n: int)
    requires forall i :: 0 <= i < |ws| ==> IsJsWhitespace(ws[i])
    ensures ParseInt(ws + IntToString(n)) == Num(n)
  {
    ParseIntIgnoresLeadingWhitespace(ws, IntToString(n));
    ParseIntOfIntToString(n);
  }

  /** A string with no digit where the digits should start is NaN. */
  lemma ParseIntOfNonNumeric(s: string)
    requires s != [] && !IsJsWhitespace(s[0]) && s[0] != '-' && s[0] != '+' && !IsDigitIn(s[0], 10)
    ensures ParseInt(s) == NaN
  {
    assert SkipWhitespace(s) == s;
  }
}
