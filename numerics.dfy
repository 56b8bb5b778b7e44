/** The .NET numeric and text primitives the interpreter relies on: unchecked Int64
    arithmetic, C#'s truncating division and remainder, Int64 and Boolean text both ways,
    the character classes the lexer tests, and an opaque stand-in for Double. */
module Numerics {
  import opened Wrappers

  const MinInt64: int := -0x8000_0000_0000_0000
  const MaxInt64: int := 0x7FFF_FFFF_FFFF_FFFF
  const TwoTo64: int := 0x1_0000_0000_0000_0000

  predicate IsInt64(x: int) { MinInt64 <= x <= MaxInt64 }

  function Abs(x: int): nat { if x < 0 then -x else x }

  /** The Int64 that an unchecked C# `+`, `-` or `*` produces when the exact result is x:
      the unique Int64 congruent to x modulo 2^64. */
  function Wrap64(x: int): (r: int)
    ensures IsInt64(r)
    ensures IsInt64(x) ==> r == x
  {
    (x - MinInt64) % TwoTo64 + MinInt64
  }

  /** Wrap64 keeps the value modulo 2^64, and it is the only Int64 that does. */
  lemma Wrap64Congruent(x: int, y: int)
    requires IsInt64(y)
    ensures (Wrap64(x) - x) % TwoTo64 == 0
    ensures (y - x) % TwoTo64 == 0 <==> y == Wrap64(x)
  {
    var k := (x - MinInt64) / TwoTo64;
    assert x - MinInt64 == k * TwoTo64 + (x - MinInt64) % TwoTo64;
    assert Wrap64(x) - x == -k * TwoTo64;
    ModMultiple(-k);
    if (y - x) % TwoTo64 == 0 {
      var j := (y - x) / TwoTo64;
      assert y - x == j * TwoTo64;
      assert y - Wrap64(x) == (j + k) * TwoTo64;
      SmallMultipleIsZero(j + k);
    } else {
      assert y != Wrap64(x);
    }
  }

  lemma ModMultiple(k: int)
    ensures (k * TwoTo64) % TwoTo64 == 0
  {
  }

  lemma SmallMultipleIsZero(k: int)
    requires -TwoTo64 < k * TwoTo64 < TwoTo64
    ensures k == 0
  {
  }

  /** C#'s `/` on Int64: the exact quotient rounded toward zero. */
  function TruncDiv(a: int, b: int): int
    requires b != 0
  {
    var q := Abs(a) / Abs(b);
    if (a < 0) == (b < 0) then q else -q
  }

  /** C#'s `%` on Int64: the remainder that goes with TruncDiv. */
  function TruncRem(a: int, b: int): int
    requires b != 0
  {
    var r := Abs(a) % Abs(b);
    if a < 0 then -r else r
  }

  /** TruncDiv and TruncRem divide a by b: the quotient rounds toward zero, the remainder is
      smaller than the divisor and takes the dividend's sign. Dafny's own `/` and `%` round
      down instead, so they differ whenever a is negative and b does not divide it. */
  lemma TruncDivision(a: int, b: int)
    requires b != 0
    ensures a == TruncDiv(a, b) * b + TruncRem(a, b)
    ensures Abs(TruncRem(a, b)) < Abs(b)
    ensures TruncRem(a, b) == 0 || (TruncRem(a, b) < 0 <==> a < 0)
    ensures Abs(TruncDiv(a, b)) * Abs(b) <= Abs(a)
  {
    var aa, bb := Abs(a), Abs(b);
    var q, r := aa / bb, aa % bb;
    assert 0 <= r < bb && q * bb + r == aa;
    assert Abs(TruncRem(a, b)) == r;
    assert Abs(TruncDiv(a, b)) == q;
    TruncIdentity(a, b);
  }

  lemma TruncIdentity(a: int, b: int)
    requires b != 0
    ensures a == TruncDiv(a, b) * b + TruncRem(a, b)
  {
    var aa, bb := Abs(a), Abs(b);
    var q, r := aa / bb, aa % bb;
    assert aa == q * bb + r;
    NegMul(q, bb);
    if a < 0 && b < 0 {
      assert TruncDiv(a, b) == q && TruncRem(a, b) == -r;
      assert q * b == -(q * bb);
    } else if a < 0 {
      assert TruncDiv(a, b) == -q && TruncRem(a, b) == -r;
      assert (-q) * b == -(q * bb);
    } else if b < 0 {
      assert TruncDiv(a, b) == -q && TruncRem(a, b) == r;
      assert (-q) * b == q * bb;
    } else {
      assert TruncDiv(a, b) == q && TruncRem(a, b) == r;
    }
  }

  lemma NegMul(x: int, y: int)
    ensures (-x) * y == -(x * y) && x * (-y) == -(x * y) && (-x) * (-y) == x * y
  {
  }

  /** Division and remainder of two Int64 values throw only for a zero divisor and for
      Int64.MinValue by -1; every other quotient and remainder is again an Int64. */
  lemma TruncDivisionInRange(a: int, b: int)
    requires IsInt64(a) && IsInt64(b) && b != 0
    ensures IsInt64(TruncRem(a, b))
    ensures IsInt64(TruncDiv(a, b)) <==> !(a == MinInt64 && b == -1)
  {
    TruncDivision(a, b);
    var t := Abs(TruncDiv(a, b));
    if Abs(b) == 1 {
      assert t == Abs(a);
    } else {
      MulAtLeastTwo(t, Abs(b));
      assert t * 2 <= Abs(a);
    }
  }

  lemma MulAtLeastTwo(t: nat, k: nat)
    requires k >= 2
    ensures t * 2 <= t * k
  {
  }

  // ---------------------------------------------------------------- character classes

  /** char.IsControl: the C0 and C1 control characters. */
  predicate IsControl(c: char) {
    c <= '\U{1F}' || ('\U{7F}' <= c <= '\U{9F}')
  }

  /** char.IsWhiteSpace: the Unicode space, line and paragraph separators plus the
      control characters TAB through CR and NEL. */
  predicate IsWhiteSpace(c: char) {
    ('\t' <= c <= '\r') || c == ' ' || c == '\U{85}' || c == '\U{A0}' || c == '\U{1680}'
    || ('\U{2000}' <= c <= '\U{200A}') || c == '\U{2028}' || c == '\U{2029}'
    || c == '\U{202F}' || c == '\U{205F}' || c == '\U{3000}'
  }

  /** The white space that NumberStyles.Integer lets surround a number. */
  predicate IsNumberWhite(c: char) {
    c == ' ' || ('\t' <= c <= '\r')
  }

  predicate IsDigit(c: char) { '0' <= c <= '9' }

  function DigitChar(d: nat): char
    requires d < 10
  {
    "0123456789"[d]
  }

  function DigitValue(c: char): nat
    requires IsDigit(c)
  {
    (c as int) - ('0' as int)
  }

  // ---------------------------------------------------------------- Int64 text

  /** The decimal digits of n, most significant first, with no leading zero. */
  function Digits(n: nat): (s: string)
    ensures |s| > 0
    ensures forall i :: 0 <= i < |s| ==> IsDigit(s[i])
    decreases n
  {
    if n < 10 then [DigitChar(n)] else Digits(n / 10) + [DigitChar(n % 10)]
  }

  /** Int64.ToString() in the invariant culture. */
  function DecimalText(i: int): string {
    if i < 0 then "-" + Digits(-i) else Digits(i)
  }

  /** The number a non-empty run of decimal digits denotes. */
  function DigitsValue(s: string): nat
    requires forall i :: 0 <= i < |s| ==> IsDigit(s[i])
  {
    if |s| == 0 then 0 else DigitsValue(s[..|s| - 1]) * 10 + DigitValue(s[|s| - 1])
  }

  predicate AllDigits(s: string) {
    |s| > 0 && forall i :: 0 <= i < |s| ==> IsDigit(s[i])
  }

  /** s without the leading and trailing characters that satisfy white. */
  function Trim(s: string, white: char -> bool): string {
    TrimEnd(TrimStart(s, white), white)
  }

  /** s without its leading white characters (TrimStartDrops says which). */
  function TrimStart(s: string, white: char -> bool): (r: string)
    ensures |r| <= |s|
  {
    if |s| > 0 && white(s[0]) then TrimStart(s[1..], white) else s
  }

  /** TrimStart keeps the suffix of s that starts at its first character that is not
      white, and drops only white characters. */
  lemma {:induction false} TrimStartDrops(s: string, white: char -> bool)
    ensures var r := TrimStart(s, white);
            && r == s[|s| - |r|..]
            && (forall i :: 0 <= i < |s| - |r| ==> white(s[i]))
            && (|r| == 0 || !white(r[0]))
    decreases |s|
  {
    if |s| > 0 && white(s[0]) {
      TrimStartDrops(s[1..], white);
      var r := TrimStart(s, white);
      assert forall i :: 1 <= i < |s| - |r| ==> s[i] == s[1..][i - 1];
      assert s[1..][|s| - 1 - |r|..] == s[|s| - |r|..];
    }
  }

  /** s without its trailing white characters (TrimEndDrops says which). */
  function TrimEnd(s: string, white: char -> bool): (r: string)
    ensures |r| <= |s|
  {
    if |s| > 0 && white(s[|s| - 1]) then TrimEnd(s[..|s| - 1], white) else s
  }

  /** TrimEnd keeps the prefix of s that ends at its last character that is not white, and
      drops only white characters. */
  lemma {:induction false} TrimEndDrops(s: string, white: char -> bool)
    ensures var r := TrimEnd(s, white);
            && r == s[..|r|]
            && (forall i :: |r| <= i < |s| ==> white(s[i]))
            && (|r| == 0 || !white(r[|r| - 1]))
    decreases |s|
  {
    if |s| > 0 && white(s[|s| - 1]) {
      TrimEndDrops(s[..|s| - 1], white);
      var r := TrimEnd(s, white);
      assert forall i :: |r| <= i < |s| - 1 ==> s[i] == s[..|s| - 1][i];
      assert s[..|s| - 1][..|r|] == s[..|r|];
    }
  }

  /** Text that starts and ends with a character that is not white is trimmed to itself. */
  lemma TrimNothing(s: string, white: char -> bool)
    requires |s| > 0 && !white(s[0]) && !white(s[|s| - 1])
    ensures Trim(s, white) == s
  {
  }

  /** Int64.TryParse(string) in the invariant culture (NumberStyles.Integer): optional white
      space, an optional sign, one or more decimal digits, optional white space, and a value
      that fits in an Int64. */
  function ParseInt64(s: string): Option<int> {
    var t := Trim(s, IsNumberWhite);
    var negative := |t| > 0 && t[0] == '-';
    var body := if |t| > 0 && (t[0] == '-' || t[0] == '+') then t[1..] else t;
    if !AllDigits(body) then None
    else
      var v: int := if negative then -(DigitsValue(body) as int) else DigitsValue(body);
      if IsInt64(v) then Some(v) else None
  }

  lemma DigitsValueOfDigits(n: nat)
    ensures DigitsValue(Digits(n)) == n
    decreases n
  {
    if n >= 10 {
      var s := Digits(n);
      assert s[..|s| - 1] == Digits(n / 10);
      DigitsValueOfDigits(n / 10);
    }
  }

  /** The text Int64.ToString() produces parses back to the same number. */
  lemma {:induction false} ParseDecimalText(i: int)
    requires IsInt64(i)
    ensures ParseInt64(DecimalText(i)) == Some(i)
  {
    var s := DecimalText(i);
    var d := if i < 0 then Digits(-i) else Digits(i);
    assert !IsNumberWhite(s[0]) && !IsNumberWhite(s[|s| - 1]);
    TrimNothing(s, IsNumberWhite);
    DigitsValueOfDigits(if i < 0 then -i else i);
    if i < 0 {
      assert s[1..] == d;
    } else {
      assert s[0] != '-' && s[0] != '+';
    }
  }

  // ---------------------------------------------------------------- Boolean text

  /** Boolean.ToString(). */
  function BoolText(b: bool): string { if b then "True" else "False" }

  /** Convert.ToBoolean(Int64). */
  function IntToBool(i: int): bool { i != 0 }

  /** Character c equals the lower-case ASCII letter l when bit 0x20 is set, which is how
      Boolean.TryParse ignores case. */
  predicate AsciiLetterMatches(c: char, l: char) {
    c == l || (c as int) + 32 == l as int
  }

  predicate MatchesIgnoringCase(s: string, lower: string) {
    |s| == |lower| && forall i :: 0 <= i < |s| ==> AsciiLetterMatches(s[i], lower[i])
  }

  predicate IsWhiteSpaceOrNul(c: char) { c == '\0' || IsWhiteSpace(c) }

  /** Boolean.TryParse: "true" or "false" in any mix of ASCII case, once white space and NUL
      characters are trimmed from both ends. */
  function ParseBool(s: string): Option<bool> {
    var t := Trim(s, IsWhiteSpaceOrNul);
    if MatchesIgnoringCase(t, "true") then Some(true)
    else if MatchesIgnoringCase(t, "false") then Some(false)
    else None
  }

  /** The text Boolean.ToString() produces parses back to the same Boolean. */
  lemma ParseBoolText(b: bool)
    ensures ParseBool(BoolText(b)) == Some(b)
  {
    var s := BoolText(b);
    TrimNothing(s, IsWhiteSpaceOrNul);
    if b {
      assert MatchesIgnoringCase(s, "true");
    } else {
      assert !MatchesIgnoringCase(s, "true");
      assert MatchesIgnoringCase(s, "false");
    }
  }

  // ---------------------------------------------------------------- Double

  /** An IEEE-754 binary64 value, kept as its bit pattern. Its arithmetic is a parameter of
      the model (FloatModel), not something the model computes. */
  datatype Float = Float(bits: bv64)

  /** 0.0, the default of a Double field. */
  const PositiveZero: Float := Float(0)

  /** The Double operations the interpreter performs, as total functions.
      ofInt: the conversion (double)x of an Int64; add/sub/mul/div/rem: `+ - * / %`;
      greater/less/greaterOrEqual/lessOrEqual: the ordered comparisons;
      near: Math.Abs(x - y) < Double.Epsilon; isNonZero: Convert.ToBoolean(double);
      text: ToString with the invariant culture;
      parse: Double.TryParse with NumberStyles.Any and the invariant culture. */
  datatype FloatModel = FloatModel(
    ofInt: int -> Float,
    add: (Float, Float) -> Float,
    sub: (Float, Float) -> Float,
    mul: (Float, Float) -> Float,
    div: (Float, Float) -> Float,
    rem: (Float, Float) -> Float,
    greater: (Float, Float) -> bool,
    less: (Float, Float) -> bool,
    greaterOrEqual: (Float, Float) -> bool,
    lessOrEqual: (Float, Float) -> bool,
    near: (Float, Float) -> bool,
    isNonZero: Float -> bool,
    text: Float -> string,
    parse: string -> Option<Float>)

  /** Characters that may surround or sign a number under NumberStyles.Any: ASCII white space,
      NUL, signs, parentheses and the invariant currency symbol. */
  predicate IsNumberDecoration(c: char) {
    IsNumberWhite(c) || c == '\0' || c == '+' || c == '-' || c == '(' || c == ')' || c == '\U{A4}'
  }

  /** Characters a number accepted under NumberStyles.Any can contain. */
  predicate IsNumberChar(c: char) {
    IsDigit(c) || c == '.' || c == ',' || c == 'e' || c == 'E' || IsNumberDecoration(c)
  }

  /** s with its decoration characters filtered out, the others kept in order. */
  function WithoutDecoration(s: string): (r: string)
    ensures |r| <= |s|
  {
    if |s| == 0 then []
    else if IsNumberDecoration(s[0]) then WithoutDecoration(s[1..])
    else [s[0]] + WithoutDecoration(s[1..])
  }

  /** The filter leaves no decoration character, and text without one is kept whole. */
  lemma {:induction false} WithoutDecorationFilters(s: string)
    ensures forall i :: 0 <= i < |WithoutDecoration(s)| ==> !IsNumberDecoration(WithoutDecoration(s)[i])
    ensures (forall i :: 0 <= i < |s| ==> !IsNumberDecoration(s[i])) ==> WithoutDecoration(s) == s
    decreases |s|
  {
    if |s| > 0 {
      WithoutDecorationFilters(s[1..]);
      var t := WithoutDecoration(s[1..]);
      if !IsNumberDecoration(s[0]) {
        assert WithoutDecoration(s) == [s[0]] + t;
        assert forall i :: 1 <= i < |s| ==> s[1..][i - 1] == s[i];
        assert [s[0]] + s[1..] == s;
      }
    }
  }

  /** The filter works character by character: the text of two parts is filtered part by
      part, so the kept characters keep their order. */
  lemma {:induction false} WithoutDecorationConcat(a: string, b: string)
    ensures WithoutDecoration(a + b) == WithoutDecoration(a) + WithoutDecoration(b)
    decreases |a|
  {
    if |a| > 0 {
      assert (a + b)[0] == a[0] && (a + b)[1..] == a[1..] + b;
      WithoutDecorationConcat(a[1..], b);
      if IsNumberDecoration(a[0]) {
        assert WithoutDecoration(a) == WithoutDecoration(a[1..]);
      } else {
        assert WithoutDecoration(a) == [a[0]] + WithoutDecoration(a[1..]);
      }
    } else {
      assert a + b == b;
    }
  }

  /** c may equal the ASCII character t when case is ignored; a non-ASCII c is allowed to
      match anything, since its case folding is not modelled. */
  predicate MayMatchChar(c: char, t: char) {
    c == t || (c as int) + 32 == t as int || (c as int) == (t as int) + 32 || c > '\U{7F}'
  }

  predicate MayMatch(s: string, t: string) {
    |s| == |t| && forall i :: 0 <= i < |s| ==> MayMatchChar(s[i], t[i])
  }

  /** A necessary condition for Double.TryParse(s, NumberStyles.Any, invariant) to succeed:
      s is made of number characters only, or, decoration aside, it spells one of the
      symbols "Infinity", "NaN" or the infinity sign. */
  predicate MayBeNumber(s: string) {
    (forall i :: 0 <= i < |s| ==> IsNumberChar(s[i]))
    || MayMatch(WithoutDecoration(s), "infinity")
    || MayMatch(WithoutDecoration(s), "nan")
    || MayMatch(WithoutDecoration(s), "\U{221E}")
  }

  /** A FloatModel whose parser accepts no more than Double.TryParse can. */
  ghost predicate ParseIsSound(fm: FloatModel) {
    forall s :: fm.parse(s).Some? ==> MayBeNumber(s)
  }
}
