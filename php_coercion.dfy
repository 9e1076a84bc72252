/**
  The PHP value semantics the order scripts rely on: which request fields count
  as present (`isset`), and how a decoded JSON scalar is coerced by `intval`,
  `floatval` and `strtolower`.
 */
module PhpCoercion {

  datatype Option<T> = None | Some(value: T)

  /** A scalar that `json_decode(..., true)` can produce for an object member. */
  datatype Scalar =
    | Null
    | Bool(b: bool)
    | Int(i: int)      // a JSON integer that fits PHP's 64-bit int
    | Float(r: real)   // any other JSON number, kept exact
    | Str(s: string)

  const PhpIntMin: int := -0x8000_0000_0000_0000
  const PhpIntMax: int := 0x7FFF_FFFF_FFFF_FFFF

  /** `isset($m[key])`: the key is present and its value is not null. */
  predicate IsSet(m: map<string, Scalar>, key: string) {
    key in m && m[key] != Null
  }

  /** Saturation to PHP's integer range, as a numeric string that overflows is converted. */
  function Clamp(n: int): (r: int)
    ensures PhpIntMin <= r <= PhpIntMax
    ensures PhpIntMin <= n <= PhpIntMax ==> r == n
    ensures n < PhpIntMin ==> r == PhpIntMin
    ensures n > PhpIntMax ==> r == PhpIntMax
  {
    if n < PhpIntMin then PhpIntMin else if n > PhpIntMax then PhpIntMax else n
  }

  /** Conversion of a real to an integer, rounding toward zero (C's and PHP's cast). */
  function Trunc(x: real): (r: int)
    ensures 0.0 <= x ==> r as real <= x < r as real + 1.0
    ensures x < 0.0 ==> r as real - 1.0 < x <= r as real
  {
    if x >= 0.0 then x.Floor else -((-x).Floor)
  }

  // ---------------------------------------------------------------------------
  // Decimal text

  predicate IsDigit(c: char) {
    '0' <= c <= '9'
  }

  predicate AllDigits(s: string) {
    forall i :: 0 <= i < |s| ==> IsDigit(s[i])
  }

  /** The white space PHP skips in front of a numeric string. */
  predicate IsSpace(c: char) {
    c == ' ' || c == '\t' || c == '\n' || c == '\r' || c as int == 11 || c as int == 12
  }

  function DigitValue(c: char): (d: nat)
    requires IsDigit(c)
    ensures d < 10
  {
    c as int - '0' as int
  }

  function DigitChar(d: nat): (c: char)
    requires d < 10
    ensures IsDigit(c) && DigitValue(c) == d
  {
    ('0' as int + d) as char
  }

  /** The value of a string of decimal digits, most significant first. */
  function DigitsValue(ds: string): nat
    requires AllDigits(ds)
  {
    if ds == [] then 0 else 10 * DigitsValue(ds[..|ds| - 1]) + DigitValue(ds[|ds| - 1])
  }

  /** The value of the digits after a decimal point: always a proper fraction. */
  function FractionValue(ds: string): (v: real)
    requires AllDigits(ds)
    ensures 0.0 <= v < 1.0
  {
    if ds == [] then 0.0 else (DigitValue(ds[0]) as real + FractionValue(ds[1..])) / 10.0
  }

  /** Length of the longest run of digits at the front of `s`. */
  function DigitPrefixLength(s: string): (n: nat)
    ensures n <= |s| && AllDigits(s[..n])
    ensures n < |s| ==> !IsDigit(s[n])
  {
    if s != [] && IsDigit(s[0]) then 1 + DigitPrefixLength(s[1..]) else 0
  }

  /** `s` without its leading white space. */
  function SkipSpace(s: string): (r: string)
    ensures |r| <= |s| && r == s[|s| - |r|..]
    ensures r != [] ==> !IsSpace(r[0])
    ensures forall i :: 0 <= i < |s| - |r| ==> IsSpace(s[i])
  {
    if s != [] && IsSpace(s[0]) then SkipSpace(s[1..]) else s
  }

  /** The leading numeric part of a string: sign, integer digits and fraction digits. */
  datatype NumericPrefix = NumericPrefix(negative: bool, whole: string, fraction: string)

  function ParseNumericPrefix(s: string): (p: NumericPrefix)
    ensures AllDigits(p.whole) && AllDigits(p.fraction)
  {
    var t := SkipSpace(s);
    if t != [] && t[0] == '-' then ParseUnsigned(true, t[1..])
    else if t != [] && t[0] == '+' then ParseUnsigned(false, t[1..])
    else ParseUnsigned(false, t)
  }

  /** The digits, and the digits after a point, at the front of `u`. */
  function ParseUnsigned(negative: bool, u: string): (p: NumericPrefix)
    ensures p.negative == negative && AllDigits(p.whole) && AllDigits(p.fraction)
  {
    var w := DigitPrefixLength(u);
    var rest := u[w..];
    if rest != [] && rest[0] == '.' then
      NumericPrefix(negative, u[..w], rest[1..][..DigitPrefixLength(rest[1..])])
    else
      NumericPrefix(negative, u[..w], "")
  }

  /** `(int)$s` for a string: the integer part of its leading number, saturated. */
  function StrToInt(s: string): int {
    var p := ParseNumericPrefix(s);
    var n: int := DigitsValue(p.whole);
    Clamp(if p.negative then -n else n)
  }

  /** `(float)$s` for a string: the value of its leading number (exact; no exponent). */
  function StrToFloat(s: string): real {
    var p := ParseNumericPrefix(s);
    var x := DigitsValue(p.whole) as real + FractionValue(p.fraction);
    if p.negative then -x else x
  }

  /** `intval($v)`. */
  function IntVal(v: Scalar): (r: int)
    ensures !v.Float? && (v.Int? ==> PhpIntMin <= v.i <= PhpIntMax) ==> PhpIntMin <= r <= PhpIntMax
  {
    match v
    case Null => 0
    case Bool(b) => if b then 1 else 0
    case Int(i) => i
    case Float(r) => Trunc(r)
    case Str(s) => StrToInt(s)
  }

  /** `floatval($v)`. */
  function FloatVal(v: Scalar): real {
    match v
    case Null => 0.0
    case Bool(b) => if b then 1.0 else 0.0
    case Int(i) => i as real
    case Float(r) => r
    case Str(s) => StrToFloat(s)
  }

  /** For text, `intval` is `floatval` cast toward zero and saturated. */
  lemma StrToIntTruncates(s: string)
    ensures StrToInt(s) == Clamp(Trunc(StrToFloat(s)))
  {
  }

  /** `intval` agrees with `floatval` followed by a cast toward zero (saturated for text). */
  lemma IntValTruncatesFloatVal(v: Scalar)
    requires v.Int? ==> PhpIntMin <= v.i <= PhpIntMax
    ensures v.Float? ==> IntVal(v) == Trunc(FloatVal(v))
    ensures !v.Float? ==> IntVal(v) == Clamp(Trunc(FloatVal(v)))
  {
  }

  /** Decimal rendering of a natural number, most significant digit first. */
  function Digits(n: nat): (ds: string)
    ensures ds != [] && AllDigits(ds) && DigitsValue(ds) == n
  {
    if n < 10 then [DigitChar(n)]
    else
      var init := Digits(n / 10);
      var ds := init + [DigitChar(n % 10)];
      assert ds[..|ds| - 1] == init;
      ds
  }

  /** Decimal rendering of an integer, with a leading minus sign when negative. */
  function Decimal(n: int): string {
    if n < 0 then "-" + Digits(-n) else Digits(n)
  }

  /** The letter that opens an exponent in a numeric string. */
  predicate IsExponentMark(c: char) {
    c == 'e' || c == 'E'
  }

  /**
    Text that cannot continue a number written just before it, as PHP reads
    numeric strings: it starts with neither a digit nor an exponent, and a
    fraction at its front is not followed by an exponent ("12.5e3" is 12500).
   */
  predicate EndsNumber(t: string) {
    t == [] ||
    (&& !IsDigit(t[0])
     && !IsExponentMark(t[0])
     && (t[0] == '.' ==> var n := DigitPrefixLength(t[1..]); n == |t| - 1 || !IsExponentMark(t[1..][n])))
  }

  lemma {:induction false} DigitPrefixOfDigits(ds: string, t: string)
    requires AllDigits(ds)
    requires t == [] || !IsDigit(t[0])
    ensures DigitPrefixLength(ds + t) == |ds|
  {
    if ds != [] {
      assert (ds + t)[1..] == ds[1..] + t;
      DigitPrefixOfDigits(ds[1..], t);
    }
  }

  lemma ParseUnsignedDigits(negative: bool, ds: string, t: string)
    requires AllDigits(ds)
    requires t == [] || !IsDigit(t[0])
    ensures ParseUnsigned(negative, ds + t).whole == ds
    ensures t == [] || t[0] != '.' ==> ParseUnsigned(negative, ds + t).fraction == ""
  {
    DigitPrefixOfDigits(ds, t);
    assert (ds + t)[..|ds|] == ds;
    assert (ds + t)[|ds|..] == t;
  }

  /** Text starting with a minus sign is read as a negative unsigned number. */
  lemma ParseMinus(s: string)
    requires s != [] && s[0] == '-'
    ensures ParseNumericPrefix(s) == ParseUnsigned(true, s[1..])
  {
  }

  /** Text starting with a digit is read as an unsigned number. */
  lemma ParseDigitFirst(s: string)
    requires s != [] && IsDigit(s[0])
    ensures ParseNumericPrefix(s) == ParseUnsigned(false, s)
  {
  }

  /** How the leading number of a decimal integer followed by non-digit text is read. */
  lemma ParseDecimal(n: int, t: string)
    requires t == [] || !IsDigit(t[0])
    ensures ParseNumericPrefix(Decimal(n) + t).negative == (n < 0)
    ensures ParseNumericPrefix(Decimal(n) + t).whole == Digits(if n < 0 then -n else n)
    ensures t == [] || t[0] != '.' ==> ParseNumericPrefix(Decimal(n) + t).fraction == ""
  {
    var ds := Digits(if n < 0 then -n else n);
    ParseUnsignedDigits(n < 0, ds, t);
    var s := Decimal(n) + t;
    if n < 0 {
      assert s == ['-'] + (ds + t);
      assert s[1..] == ds + t;
      ParseMinus(s);
    } else {
      assert s == ds + t;
      ParseDigitFirst(s);
    }
  }

  /**
    A number sent as decimal text reads back as that number when the text after
    it cannot continue it ("12abc" reads as 12). A fraction after it is left
    out: PHP reads such text through a double, whose rounding can change the
    integer part.
   */
  lemma DecimalPrefixIntVal(n: int, t: string)
    requires PhpIntMin <= n <= PhpIntMax
    requires EndsNumber(t) && (t == [] || t[0] != '.')
    ensures IntVal(Str(Decimal(n) + t)) == n
  {
    ParseDecimal(n, t);
  }

  /** The same for `floatval`. */
  lemma DecimalPrefixFloatVal(n: int, t: string)
    requires EndsNumber(t) && (t == [] || t[0] != '.')
    ensures FloatVal(Str(Decimal(n) + t)) == n as real
  {
    ParseDecimal(n, t);
  }

  // ---------------------------------------------------------------------------
  // Case

  function LowerChar(c: char): char {
    if 'A' <= c <= 'Z' then (c as int - 'A' as int + 'a' as int) as char else c
  }

  /** `strtolower`: ASCII upper-case letters become lower case, everything else is kept. */
  function Lower(s: string): (r: string)
    ensures |r| == |s|
    ensures forall i :: 0 <= i < |s| ==> r[i] == LowerChar(s[i])
  {
    if s == [] then [] else [LowerChar(s[0])] + Lower(s[1..])
  }

  /** `s` is `word` with any of its letters in upper case. */
  ghost predicate SpellsIgnoringCase(s: string, word: string) {
    |s| == |word| && forall i :: 0 <= i < |s| ==> s[i] == word[i] || s[i] == UpperChar(word[i])
  }

  /** `Lower(s)` equals a lower-case word exactly when `s` spells it in any mix of cases. */
  lemma LowerMatches(s: string, word: string)
    requires forall i :: 0 <= i < |word| ==> 'a' <= word[i] <= 'z'
    ensures Lower(s) == word <==> SpellsIgnoringCase(s, word)
  {
  }

  function UpperChar(c: char): char {
    if 'a' <= c <= 'z' then (c as int - 'a' as int + 'A' as int) as char else c
  }
}
