/**
  The JavaScript `Number(...)` conversion of strings (the StringToNumber
  abstract operation of ECMAScript, section 7.1.4.1.1), over exact reals.

  A JavaScript number is NaN, a finite value or one of the two infinities.
  Finite values are exact reals here: IEEE-754 rounding, overflow to the
  infinities and underflow to zero are not modelled.
*/
module JsNumber {
  import opened Wrappers

  datatype Numeric = NaN | Finite(value: real) | Infinite(negative: bool)

  /** `x < 0` for a JavaScript number: false for NaN, true for -Infinity. */
  predicate IsNegative(n: Numeric) {
    match n
    case NaN => false
    case Finite(v) => v < 0.0
    case Infinite(neg) => neg
  }

  /** Unary minus. */
  function Negate(n: Numeric): Numeric {
    match n
    case NaN => NaN
    case Finite(v) => Finite(-v)
    case Infinite(neg) => Infinite(!neg)
  }

  /** StrWhiteSpaceChar: the WhiteSpace code points (TAB, VT, FF, ZWNBSP and
      every Unicode "Zs" space) and the LineTerminator code points. */
  predicate IsWhiteSpace(c: char) {
    var k := c as int;
    || k == 0x09 || k == 0x0A || k == 0x0B || k == 0x0C || k == 0x0D
    || k == 0x20 || k == 0xA0 || k == 0x1680 || 0x2000 <= k <= 0x200A
    || k == 0x2028 || k == 0x2029 || k == 0x202F || k == 0x205F
    || k == 0x3000 || k == 0xFEFF
  }

  predicate AllWhiteSpace(s: string) {
    forall i :: 0 <= i < |s| ==> IsWhiteSpace(s[i])
  }

  /** `s` without its leading white space. */
  function TrimStart(s: string): (r: string)
    ensures |r| <= |s| && r == s[|s| - |r|..]
    ensures AllWhiteSpace(s[..|s| - |r|])
    ensures r == [] || !IsWhiteSpace(r[0])
    decreases |s|
  {
    if s != [] && IsWhiteSpace(s[0]) then
      var r := TrimStart(s[1..]);
      assert s[..|s| - |r|] == [s[0]] + s[1..][..|s[1..]| - |r|];
      r
    else s
  }

  /** `s` without its trailing white space. */
  function TrimEnd(s: string): (r: string)
    ensures |r| <= |s| && r == s[..|r|]
    ensures AllWhiteSpace(s[|r|..])
    ensures r == [] || !IsWhiteSpace(r[|r| - 1])
    decreases |s|
  {
    if s != [] && IsWhiteSpace(s[|s| - 1]) then
      var r := TrimEnd(s[..|s| - 1]);
      assert s[|r|..] == s[..|s| - 1][|r|..] + [s[|s| - 1]];
      r
    else s
  }

  function Trim(s: string): string {
    TrimEnd(TrimStart(s))
  }

  /** Characters that are a digit in some radix up to 16. */
  predicate IsHexChar(c: char) {
    '0' <= c <= '9' || 'a' <= c <= 'f' || 'A' <= c <= 'F'
  }

  function DigitValue(c: char): (d: nat)
    requires IsHexChar(c)
    ensures d < 16
    ensures '0' <= c <= '9' <==> d < 10
  {
    if '0' <= c <= '9' then c as int - '0' as int
    else if 'a' <= c <= 'f' then c as int - 'a' as int + 10
    else c as int - 'A' as int + 10
  }

  predicate IsDigitIn(c: char, radix: nat) {
    IsHexChar(c) && DigitValue(c) < radix
  }

  predicate AllDigitsIn(s: string, radix: nat) {
    forall i :: 0 <= i < |s| ==> IsDigitIn(s[i], radix)
  }

  /** The value of a digit string in `radix`, most significant digit first. */
  function DigitsValue(s: string, radix: nat): nat
    requires AllDigitsIn(s, radix)
    decreases |s|
  {
    if s == [] then 0
    else DigitsValue(s[..|s| - 1], radix) * radix + DigitValue(s[|s| - 1])
  }

  function Pow10(e: int): (r: real)
    ensures r > 0.0
    decreases if e < 0 then -e else e
  {
    if e == 0 then 1.0
    else if e > 0 then 10.0 * Pow10(e - 1)
    else Pow10(e + 1) / 10.0
  }

  /** Index of the first occurrence of `a` or `b` in `s`, or `|s|` when neither occurs. */
  function Find(s: string, a: char, b: char): (k: nat)
    ensures k <= |s|
    ensures k < |s| ==> s[k] == a || s[k] == b
    ensures forall j :: 0 <= j < k ==> s[j] != a && s[j] != b
    decreases |s|
  {
    if s == [] then 0
    else if s[0] == a || s[0] == b then 0
    else 1 + Find(s[1..], a, b)
  }

  /** SignedInteger: an optional sign followed by at least one decimal digit. */
  function SignedInteger(s: string): Option<int> {
    if |s| > 0 && (s[0] == '+' || s[0] == '-') then
      var digits := s[1..];
      if |digits| > 0 && AllDigitsIn(digits, 10) then
        Some(if s[0] == '-' then -(DigitsValue(digits, 10) as int) else DigitsValue(digits, 10))
      else None
    else if |s| > 0 && AllDigitsIn(s, 10) then Some(DigitsValue(s, 10))
    else None
  }

  /** The part of a decimal literal before its exponent: digits with an
      optional fraction, at least one digit in all. */
  function Mantissa(m: string): Option<real> {
    var p := Find(m, '.', '.');
    var whole := m[..p];
    var fraction := if p < |m| then m[p + 1..] else [];
    if !AllDigitsIn(whole, 10) || !AllDigitsIn(fraction, 10) || |whole| + |fraction| == 0 then None
    else Some(DigitsValue(whole, 10) as real + DigitsValue(fraction, 10) as real / Pow10(|fraction|))
  }

  /** StrUnsignedDecimalLiteral: `Infinity`, or a mantissa with an optional
      exponent; anything else reads as NaN. */
  function UnsignedDecimal(t: string): Numeric {
    if t == "Infinity" then Infinite(false)
    else
      var e := Find(t, 'e', 'E');
      match Mantissa(t[..e])
      case None => NaN
      case Some(m) =>
        if e == |t| then Finite(m)
        else
          match SignedInteger(t[e + 1..])
          case None => NaN
          case Some(x) => Finite(m * Pow10(x))
  }

  /** The digits of a NonDecimalIntegerLiteral after its `0x`/`0o`/`0b` marker. */
  function RadixDigits(d: string, radix: nat): Numeric {
    if |d| > 0 && AllDigitsIn(d, radix) then Finite(DigitsValue(d, radix) as real) else NaN
  }

  /** `Number(s)` for a string `s`. */
  function StringToNumber(s: string): Numeric {
    NumericLiteral(Trim(s))
  }

  /** StrNumericLiteral, for a string already stripped of white space: empty
      reads as 0, then the `0x`/`0o`/`0b` integer forms, then a signed decimal. */
  function NumericLiteral(t: string): Numeric {
    if t == [] then Finite(0.0)
    else if |t| >= 2 && t[0] == '0' && (t[1] == 'x' || t[1] == 'X') then RadixDigits(t[2..], 16)
    else if |t| >= 2 && t[0] == '0' && (t[1] == 'o' || t[1] == 'O') then RadixDigits(t[2..], 8)
    else if |t| >= 2 && t[0] == '0' && (t[1] == 'b' || t[1] == 'B') then RadixDigits(t[2..], 2)
    else if t[0] == '-' then Negate(UnsignedDecimal(t[1..]))
    else if t[0] == '+' then UnsignedDecimal(t[1..])
    else UnsignedDecimal(t)
  }

  /** The shortest decimal spelling of a natural number. */
  function Decimal(n: nat): (s: string)
    ensures |s| > 0 && AllDigitsIn(s, 10)
    decreases n
  {
    var last := ['0' + (n % 10) as char];
    if n < 10 then last else Decimal(n / 10) + last
  }

  lemma {:induction false} DecimalValue(n: nat)
    ensures DigitsValue(Decimal(n), 10) == n
    decreases n
  {
    var s := Decimal(n);
    if n >= 10 {
      DecimalValue(n / 10);
      assert s[..|s| - 1] == Decimal(n / 10);
    }
  }

  /** Reading back the decimal spelling of a natural number yields the number:
      `Number(String(n)) === n`. */
  lemma {:induction false} DecimalRoundTrip(n: nat)
    ensures StringToNumber(Decimal(n)) == Finite(n as real)
  {
    var s := Decimal(n);
    DecimalValue(n);
    TrimDigits(s);
    DigitsAreUnsignedDecimal(s);
    DigitsAreDecimalLiteral(s);
  }

  lemma DigitsAreDecimalLiteral(t: string)
    requires |t| > 0 && AllDigitsIn(t, 10)
    ensures NumericLiteral(t) == UnsignedDecimal(t)
  {
    DecimalDigitIsPlain(t[0]);
    if |t| >= 2 {
      DecimalDigitIsPlain(t[1]);
    }
  }

  lemma DecimalDigitIsPlain(c: char)
    requires IsDigitIn(c, 10)
    ensures '0' <= c <= '9'
    ensures !IsWhiteSpace(c)
  {
  }

  lemma TrimDigits(s: string)
    requires |s| > 0 && AllDigitsIn(s, 10)
    ensures Trim(s) == s
  {
    DecimalDigitIsPlain(s[0]);
    DecimalDigitIsPlain(s[|s| - 1]);
    var t := TrimStart(s);
    assert t == s;
    assert t[|t| - 1] == s[|s| - 1];
  }

  lemma DigitsAreUnsignedDecimal(s: string)
    requires |s| > 0 && AllDigitsIn(s, 10)
    ensures UnsignedDecimal(s) == Finite(DigitsValue(s, 10) as real)
  {
    DecimalDigitIsPlain(s[0]);
    assert s != "Infinity" by {
      assert "Infinity"[0] == 'I';
    }
    forall i | 0 <= i < |s|
      ensures s[i] != 'e' && s[i] != 'E' && s[i] != '.'
    {
      DecimalDigitIsPlain(s[i]);
    }
    FindAbsent(s, 'e', 'E');
    assert s[..|s|] == s;
    DigitsAreMantissa(s);
  }

  lemma DigitsAreMantissa(s: string)
    requires |s| > 0 && AllDigitsIn(s, 10)
    requires forall i :: 0 <= i < |s| ==> s[i] != '.'
    ensures Mantissa(s) == Some(DigitsValue(s, 10) as real)
  {
    FindAbsent(s, '.', '.');
    assert s[..|s|] == s;
    assert AllDigitsIn([], 10) && DigitsValue([], 10) == 0;
    assert Pow10(0) == 1.0;
  }

  lemma FindAbsent(s: string, a: char, b: char)
    requires forall i :: 0 <= i < |s| ==> s[i] != a && s[i] != b
    ensures Find(s, a, b) == |s|
  {
  }

  /** Empty and all-white-space strings convert to 0, so `isNaN("")` is false. */
  lemma BlankIsZero(s: string)
    requires AllWhiteSpace(s)
    ensures StringToNumber(s) == Finite(0.0)
  {
    assert TrimStart(s) == [];
  }
}
