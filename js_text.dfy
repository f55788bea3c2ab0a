/**
 * The handful of JavaScript string and number primitives the storefront's
 * decisions rest on: `String.prototype.trim`, `Number(string)` for the
 * integer strings the language selector stores, the decimal rendering of an
 * integer in a template literal, and `String.prototype.split('/')`.
 */
module JsText {

  /** WhiteSpace and LineTerminator code points of ECMAScript, which `trim` strips. */
  predicate IsWhitespace(c: char) {
    || c == '\U{0009}' || c == '\U{000A}' || c == '\U{000B}' || c == '\U{000C}' || c == '\U{000D}'
    || c == ' ' || c == '\U{00A0}' || c == '\U{1680}'
    || ('\U{2000}' <= c <= '\U{200A}')
    || c == '\U{2028}' || c == '\U{2029}' || c == '\U{202F}' || c == '\U{205F}'
    || c == '\U{3000}' || c == '\U{FEFF}'
  }

  /** `s.trim() === ''`: the string is empty or made of whitespace only. */
  predicate IsBlank(s: string) {
    forall i :: 0 <= i < |s| ==> IsWhitespace(s[i])
  }

  function TrimStart(s: string): (r: string)
    ensures |r| <= |s| && r == s[|s| - |r|..]
    ensures r == [] || !IsWhitespace(r[0])
    ensures IsBlank(s[..|s| - |r|])
  {
    if s != [] && IsWhitespace(s[0]) then TrimStart(s[1..]) else s
  }

  function TrimEnd(s: string): (r: string)
    ensures |r| <= |s| && r == s[..|r|]
    ensures r == [] || !IsWhitespace(r[|r| - 1])
    ensures IsBlank(s[|r|..])
  {
    if s != [] && IsWhitespace(s[|s| - 1]) then TrimEnd(s[..|s| - 1]) else s
  }

  /** `s.trim()` */
  function Trim(s: string): string {
    TrimEnd(TrimStart(s))
  }

  /** Trimming leaves nothing exactly when the string is blank. */
  lemma TrimEmptyIffBlank(s: string)
    ensures Trim(s) == "" <==> IsBlank(s)
  {
    var u := TrimStart(s);
    assert s == s[..|s| - |u|] + u;
  }

  /** A string with no whitespace at either end is its own trim. */
  lemma TrimUnpadded(s: string)
    requires s == [] || (!IsWhitespace(s[0]) && !IsWhitespace(s[|s| - 1]))
    ensures Trim(s) == s
  {
  }

  // ---------------------------------------------------------------------------
  // Numbers

  /**
   * The value of `Number(s)` as far as this model needs it: an integer, or
   * any other number (NaN, a fraction, an infinity), which no language code
   * and no product identifier equals.
   */
  datatype JsNumber = Int(value: int) | NonInteger

  predicate IsDigit(c: char) {
    '0' <= c <= '9'
  }

  predicate AllDigits(s: string) {
    forall i :: 0 <= i < |s| ==> IsDigit(s[i])
  }

  function DigitValue(c: char): nat
    requires IsDigit(c)
  {
    c as int - '0' as int
  }

  function DigitChar(d: nat): (c: char)
    requires d < 10
    ensures IsDigit(c) && DigitValue(c) == d
  {
    ('0' as int + d) as char
  }

  /** The value of a string of decimal digits, most significant first. */
  function DigitsValue(s: string): nat
    requires AllDigits(s)
  {
    if s == [] then 0 else DigitsValue(s[..|s| - 1]) * 10 + DigitValue(s[|s| - 1])
  }

  /** Decimal rendering of a natural number, as a template literal prints it. */
  function NatToString(n: nat): (s: string)
    ensures s != [] && AllDigits(s)
    ensures |s| == 1 <==> n < 10
    ensures (s[0] == '0') == (n == 0)
    decreases n
  {
    if n < 10 then [DigitChar(n)] else NatToString(n / 10) + [DigitChar(n % 10)]
  }

  /** Decimal rendering of an integer: `${n}` in a template literal. */
  function IntToString(n: int): (s: string)
    ensures s != [] && !IsWhitespace(s[0]) && !IsWhitespace(s[|s| - 1])
    ensures (s[0] == '-') == (n < 0)
  {
    if n < 0 then "-" + NatToString(-n) else NatToString(n)
  }

  /**
   * `Number(s)`: surrounding whitespace is ignored, a blank string is 0, and
   * the rest must be a whole numeric literal, decimal (see `DecimalNumber`) or
   * a `0x`/`0o`/`0b` integer, else the result is NaN (`NonInteger`).
   */
  function NumberOf(s: string): (r: JsNumber)
    ensures IsBlank(s) ==> r == Int(0)
  {
    TrimEmptyIffBlank(s);
    NumberOfTrimmed(Trim(s))
  }

  /** `Number` of a string that has already been trimmed. */
  function NumberOfTrimmed(u: string): (r: JsNumber)
    ensures u != "" && AllDigits(u) ==> r == Int(DigitsValue(u))
  {
    assert AllDigits(u) && |u| > 1 ==> RadixOf(u[1]) == 0 by {
      if AllDigits(u) && |u| > 1 { assert IsDigit(u[1]); }
    }
    if u == "" then Int(0)
    else if |u| > 2 && u[0] == '0' && RadixOf(u[1]) > 0 then
      var radix := RadixOf(u[1]);
      if AllRadixDigits(u[2..], radix) then Int(RadixValue(u[2..], radix)) else NonInteger
    else
      var body := if u[0] == '-' || u[0] == '+' then u[1..] else u;
      match DecimalNumber(body)
      case Int(v) => Int(if u[0] == '-' then -v else v)
      case NonInteger => NonInteger
  }

  // The radix prefixes `0x`, `0o` and `0b`, in either case; no sign may precede them.

  function RadixOf(c: char): nat {
    if c == 'x' || c == 'X' then 16
    else if c == 'o' || c == 'O' then 8
    else if c == 'b' || c == 'B' then 2
    else 0
  }

  /** A digit's value in the largest radix: 0-9, then a-z and A-Z from 10; 36 for anything else. */
  function RadixDigitValue(c: char): nat {
    if '0' <= c <= '9' then c as int - '0' as int
    else if 'a' <= c <= 'z' then c as int - 'a' as int + 10
    else if 'A' <= c <= 'Z' then c as int - 'A' as int + 10
    else 36
  }

  predicate AllRadixDigits(s: string, radix: nat) {
    s != [] && forall i :: 0 <= i < |s| ==> RadixDigitValue(s[i]) < radix
  }

  function RadixValue(s: string, radix: nat): nat {
    if s == [] then 0 else RadixValue(s[..|s| - 1], radix) * radix + RadixDigitValue(s[|s| - 1])
  }

  // Decimal literals: digits, an optional point with digits after it, and an
  // optional exponent; at least one digit on either side of the point.

  /** The first position of `c` in `s`, or `|s|` when there is none. */
  function IndexOf(s: string, c: char): (r: nat)
    ensures r <= |s|
    ensures r < |s| ==> s[r] == c
    ensures forall j :: 0 <= j < r ==> s[j] != c
  {
    if s == [] then 0
    else if s[0] == c then 0
    else 1 + IndexOf(s[1..], c)
  }

  /** The first position of `e` or `E` in `s`, or `|s|` when there is none. */
  function ExponentIndex(s: string): (r: nat)
    ensures r <= |s|
    ensures r < |s| ==> s[r] == 'e' || s[r] == 'E'
    ensures forall j :: 0 <= j < r ==> s[j] != 'e' && s[j] != 'E'
  {
    var e, f := IndexOf(s, 'e'), IndexOf(s, 'E');
    if e <= f then e else f
  }

  /** An exponent after the `e`: an optionally signed, non-empty run of digits. */
  predicate IsExponent(s: string) {
    if s != [] && (s[0] == '+' || s[0] == '-') then |s| > 1 && AllDigits(s[1..])
    else s != [] && AllDigits(s)
  }

  function ExponentValue(s: string): int
    requires IsExponent(s)
  {
    if s[0] == '+' || s[0] == '-' then
      var magnitude: int := DigitsValue(s[1..]);
      if s[0] == '-' then -magnitude else magnitude
    else DigitsValue(s)
  }

  /** The part before the exponent: `digits`, `digits.`, `.digits` or `digits.digits`. */
  predicate IsMantissa(m: string) {
    var d := IndexOf(m, '.');
    if d == |m| then m != [] && AllDigits(m)
    else |m| > 1 && AllDigits(m[..d]) && AllDigits(m[d + 1..])
  }

  /** The mantissa's digits with the point taken out. */
  function MantissaDigits(m: string): (r: string)
    requires IsMantissa(m)
    ensures AllDigits(r)
  {
    var d := IndexOf(m, '.');
    if d == |m| then m else m[..d] + m[d + 1..]
  }

  /** How many digits follow the point. */
  function FractionLength(m: string): nat {
    var d := IndexOf(m, '.');
    if d == |m| then 0 else |m| - d - 1
  }

  function Pow10(k: nat): (r: nat)
    ensures r >= 1
  {
    if k == 0 then 1 else 10 * Pow10(k - 1)
  }

  /**
   * The unsigned decimal literal `body`: its value is the mantissa's digits
   * times ten to the exponent less the fraction's length, an integer when
   * that power is not negative or divides the digits' value.
   */
  function DecimalNumber(body: string): (r: JsNumber)
    ensures r.Int? ==> r.value >= 0
    ensures body != "" && AllDigits(body) ==> r == Int(DigitsValue(body))
  {
    var e := ExponentIndex(body);
    assert AllDigits(body) ==> e == |body| && IndexOf(body, '.') == |body| by {
      if AllDigits(body) {
        assert e < |body| ==> IsDigit(body[e]);
        assert IndexOf(body, '.') < |body| ==> IsDigit(body[IndexOf(body, '.')]);
      }
    }
    assert body[..|body|] == body;
    var mantissa := body[..e];
    if !IsMantissa(mantissa) then NonInteger
    else if e < |body| && !IsExponent(body[e + 1..]) then NonInteger
    else
      var exponent := if e < |body| then ExponentValue(body[e + 1..]) else 0;
      Scaled(DigitsValue(MantissaDigits(mantissa)), exponent - FractionLength(mantissa))
  }

  /** `digits` times ten to the `shift`, when that is an integer. */
  function Scaled(digits: nat, shift: int): (r: JsNumber)
    ensures r.Int? ==> r.value >= 0
    ensures shift == 0 ==> r == Int(digits)
  {
    if shift >= 0 then Int(digits * Pow10(shift))
    else if digits % Pow10(-shift) == 0 then Int(digits / Pow10(-shift))
    else NonInteger
  }

  /** A point with zeros, an exponent or a radix prefix can still spell an integer; a sign cannot precede a prefix. */
  lemma NumberOfOtherLiterals()
    ensures NumberOf("2.0") == Int(2) && NumberOf("2.5") == NonInteger
    ensures NumberOf("2e0") == Int(2) && NumberOf("0x2") == Int(2) && NumberOf("-0x2") == NonInteger
  {
    NumberOfDecimal("2.0");
    DecimalPointZero();
    NumberOfDecimal("2.5");
    DecimalPointFive();
    NumberOfDecimal("2e0");
    DecimalExponentZero();
    HexTwo();
    SignedHex();
  }

  lemma NumberOfDecimal(u: string)
    requires u != [] && IsDigit(u[0]) && u[0] != '0' && IsDigit(u[|u| - 1])
    ensures NumberOf(u) == DecimalNumber(u)
  {
    NumberOfUnpadded(u);
  }

  /** A run of digits with one point inside, and no exponent, as a decimal literal. */
  lemma PointedDecimal(body: string, d: nat)
    requires 0 < d < |body| - 1 && body[d] == '.'
    requires AllDigits(body[..d]) && AllDigits(body[d + 1..])
    ensures DecimalNumber(body) == Scaled(DigitsValue(body[..d] + body[d + 1..]), -(|body| - d - 1))
  {
    assert forall j :: 0 <= j < d ==> IsDigit(body[..d][j]);
    assert forall j :: d < j < |body| ==> body[j] == body[d + 1..][j - d - 1];
    assert ExponentIndex(body) == |body|;
    assert IndexOf(body, '.') == d;
    assert body[..|body|] == body;
  }

  lemma DecimalPointZero()
    ensures DecimalNumber("2.0") == Int(2)
  {
    assert "2.0"[..1] == "2" && "2.0"[2..] == "0";
    PointedDecimal("2.0", 1);
    assert "2.0"[..1] + "2.0"[2..] == "20";
    assert DigitsValue("20") == 20 by { assert "20"[..1] == "2"; }
    assert Pow10(1) == 10;
  }

  lemma DecimalPointFive()
    ensures DecimalNumber("2.5") == NonInteger
  {
    assert "2.5"[..1] == "2" && "2.5"[2..] == "5";
    PointedDecimal("2.5", 1);
    assert "2.5"[..1] + "2.5"[2..] == "25";
    assert DigitsValue("25") == 25 by { assert "25"[..1] == "2"; }
    assert Pow10(1) == 10;
  }

  lemma DecimalExponentZero()
    ensures DecimalNumber("2e0") == Int(2)
  {
    var u := "2e0";
    assert ExponentIndex(u) == 1 by {
      assert IndexOf(u, 'e') == 1;
      assert IndexOf(u, 'E') == 3;
    }
    assert u[..1] == "2" && u[2..] == "0";
    assert IndexOf("2", '.') == 1;
    assert IsMantissa("2") && MantissaDigits("2") == "2" && FractionLength("2") == 0;
    assert IsExponent("0") && ExponentValue("0") == 0;
  }

  lemma HexTwo()
    ensures NumberOf("0x2") == Int(2)
  {
    NumberOfUnpadded("0x2");
    assert "0x2"[2..] == "2";
    assert RadixValue("2", 16) == 2 by { assert "2"[..0] == ""; }
  }

  lemma SignedHex()
    ensures NumberOf("-0x2") == NonInteger
  {
    NumberOfUnpadded("-0x2");
    assert "-0x2"[1..] == "0x2";
    DecimalRejectsPrefix();
  }

  lemma DecimalRejectsPrefix()
    ensures DecimalNumber("0x2") == NonInteger
  {
    var u := "0x2";
    assert ExponentIndex(u) == 3;
    assert u[..3] == u;
    assert IndexOf(u, '.') == 3;
    assert !IsDigit(u[1]);
  }

  /** Reading back the rendering of a natural number yields that number. */
  lemma {:induction false} DigitsValueOfNatToString(n: nat)
    ensures DigitsValue(NatToString(n)) == n
    decreases n
  {
    var s := NatToString(n);
    if n >= 10 {
      DigitsValueOfNatToString(n / 10);
      assert s[..|s| - 1] == NatToString(n / 10);
    }
  }

  /** `Number(String(n)) === n` for every integer n. */
  lemma {:induction false} NumberOfIntToString(n: int)
    ensures NumberOf(IntToString(n)) == Int(n)
  {
    var s := IntToString(n);
    NumberOfUnpadded(s);
    if n < 0 {
      DigitsValueOfNatToString(-n);
      NumberOfSignedDigits(NatToString(-n));
      assert s == "-" + NatToString(-n);
    } else {
      DigitsValueOfNatToString(n);
      assert NumberOfTrimmed(s) == Int(DigitsValue(s));
    }
  }

  lemma NumberOfUnpadded(s: string)
    requires s != [] && !IsWhitespace(s[0]) && !IsWhitespace(s[|s| - 1])
    ensures NumberOf(s) == NumberOfTrimmed(s)
  {
    TrimUnpadded(s);
  }

  lemma NumberOfSignedDigits(digits: string)
    requires digits != [] && AllDigits(digits)
    ensures NumberOfTrimmed("-" + digits) == Int(-(DigitsValue(digits) as int))
  {
    var u := "-" + digits;
    assert u[0] == '-' && u[1..] == digits;
    assert DecimalNumber(digits) == Int(DigitsValue(digits));
  }

  // ---------------------------------------------------------------------------
  // Splitting on a separator

  /** `s.split(sep)`: the pieces between occurrences of sep, in order. */
  function Split(s: string, sep: char): (r: seq<string>)
    ensures |r| >= 1
    ensures forall i :: 0 <= i < |r| ==> sep !in r[i]
  {
    if s == [] then [""]
    else if s[0] == sep then [""] + Split(s[1..], sep)
    else
      var rest := Split(s[1..], sep);
      [[s[0]] + rest[0]] + rest[1..]
  }

  /** `pieces.join(sep)` */
  function Join(pieces: seq<string>, sep: char): string
    requires |pieces| >= 1
  {
    if |pieces| == 1 then pieces[0] else pieces[0] + [sep] + Join(pieces[1..], sep)
  }

  /** Joining the pieces of a split with its separator gives back the string. */
  lemma {:induction false} JoinSplit(s: string, sep: char)
    ensures Join(Split(s, sep), sep) == s
  {
    if s == [] {
    } else if s[0] == sep {
      JoinSplit(s[1..], sep);
    } else {
      var rest := Split(s[1..], sep);
      JoinSplit(s[1..], sep);
      if |rest| == 1 {
        assert Join(rest, sep) == rest[0];
      } else {
        assert Join(rest, sep) == rest[0] + [sep] + Join(rest[1..], sep);
        var r := [[s[0]] + rest[0]] + rest[1..];
        assert r[1..] == rest[1..];
      }
    }
  }

  /** A string without the separator is one piece. */
  lemma {:induction false} SplitWithoutSeparator(s: string, sep: char)
    requires sep !in s
    ensures Split(s, sep) == [s]
  {
    if s != [] {
      SplitWithoutSeparator(s[1..], sep);
      assert [s[0]] + s[1..] == s;
    }
  }

  /** Splitting distributes over an occurrence of the separator. */
  lemma {:induction false} SplitAround(a: string, sep: char, b: string)
    ensures Split(a + [sep] + b, sep) == Split(a, sep) + Split(b, sep)
  {
    if a == [] {
      assert a + [sep] + b == [sep] + b;
      assert ([sep] + b)[1..] == b;
    } else {
      SplitAround(a[1..], sep, b);
      assert (a + [sep] + b)[1..] == a[1..] + [sep] + b;
      if a[0] != sep {
        var rest := Split(a[1..], sep);
        assert Split(a[1..] + [sep] + b, sep) == rest + Split(b, sep);
      }
    }
  }
}
