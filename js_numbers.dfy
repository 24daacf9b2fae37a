/**
  The slice of JavaScript number handling the pages use: `Number(s)` on a
  form field, `parseInt(s)` on a duration label, `Math.round`, and the
  comparisons `<` and `>`, which are false whenever one side is `NaN`.
 */
module JsNumbers {
  import opened Wrappers
  import opened Text

  /** A JavaScript number as the pages compare it: `NaN`, or a finite value. */
  datatype Num = NaN | Val(v: real)

  /** `n > k`; false for `NaN`. */
  predicate Gt(n: Num, k: real) {
    n.Val? && n.v > k
  }

  /** `n < k`; false for `NaN`. */
  predicate Lt(n: Num, k: real) {
    n.Val? && n.v < k
  }

  /** The white space `Number` strips: tab, line feed, vertical tab, form feed, carriage return, space. */
  predicate IsJsSpace(c: char) {
    c == ' ' || 9 <= c as int <= 13
  }

  function TrimStart(s: string): (r: string)
    ensures |r| <= |s|
    ensures r == [] || !IsJsSpace(r[0])
    decreases |s|
  {
    if s != [] && IsJsSpace(s[0]) then TrimStart(s[1..]) else s
  }

  function TrimEnd(s: string): (r: string)
    ensures r <= s
    ensures r == [] || !IsJsSpace(r[|r| - 1])
    decreases |s|
  {
    if s != [] && IsJsSpace(s[|s| - 1]) then TrimEnd(s[..|s| - 1]) else s
  }

  /** `s.trim()` over the white space of `IsJsSpace`. */
  function Trim(s: string): string {
    TrimEnd(TrimStart(s))
  }

  function Pow10(k: nat): (r: nat)
    ensures r > 0
  {
    if k == 0 then 1 else 10 * Pow10(k - 1)
  }

  /** The index of the first `.` in `s`, or `|s|` when there is none. */
  function IndexOfDot(s: string): (k: nat)
    ensures k <= |s|
    ensures k < |s| ==> s[k] == '.'
    ensures forall i :: 0 <= i < k ==> s[i] != '.'
    decreases |s|
  {
    if s == [] then 0 else if s[0] == '.' then 0 else 1 + IndexOfDot(s[1..])
  }

  /**
    An unsigned decimal literal: digits with an optional fractional part
    (`12`, `12.`, `12.5`, `.5`); anything else is `NaN`.
   */
  function ParseUnsigned(u: string): Num {
    var k := IndexOfDot(u);
    var whole := u[..k];
    var frac := if k < |u| then u[k + 1..] else "";
    if AllDigits(whole) && AllDigits(frac) && (|whole| > 0 || |frac| > 0) then
      Val(DecimalValue(whole, frac))
    else
      NaN
  }

  /** The value of the literal `whole.frac`. */
  function DecimalValue(whole: string, frac: string): real
    requires AllDigits(whole) && AllDigits(frac)
  {
    DigitsValue(whole) as real + DigitsValue(frac) as real / Pow10(|frac|) as real
  }

  function Negate(n: Num): Num {
    match n
    case NaN => NaN
    case Val(v) => Val(-v)
  }

  /**
    `Number(s)` for decimal text: surrounding white space is ignored, the
    blank string is 0, a leading `+` or `-` is a sign. A plain string of
    digits reads as its decimal value, and a minus sign before it negates
    that value.
   */
  function ToNumber(s: string): (n: Num)
    ensures |s| > 0 && AllDigits(s) ==> n == Val(DigitsValue(s) as real)
    ensures |s| > 1 && s[0] == '-' && AllDigits(s[1..]) ==> n == Val(-(DigitsValue(s[1..]) as real))
  {
    DigitsReadAsValue(s);
    NegatedDigitsReadAsValue(s);
    var t := Trim(s);
    if t == "" then Val(0.0)
    else if t[0] == '-' then Negate(ParseUnsigned(t[1..]))
    else if t[0] == '+' then ParseUnsigned(t[1..])
    else ParseUnsigned(t)
  }

  lemma DigitsReadAsValue(s: string)
    ensures |s| > 0 && AllDigits(s) ==> Trim(s) == s && IsDigit(s[0]) && ParseUnsigned(s) == Val(DigitsValue(s) as real)
  {
    if |s| > 0 && AllDigits(s) {
      TrimDigits(s);
      UnsignedDigits(s);
      assert IsDigit(s[0]);
    }
  }

  lemma NegatedDigitsReadAsValue(s: string)
    ensures |s| > 1 && s[0] == '-' && AllDigits(s[1..]) ==>
      Trim(s) == s && ParseUnsigned(s[1..]) == Val(DigitsValue(s[1..]) as real)
  {
    if |s| > 1 && s[0] == '-' && AllDigits(s[1..]) {
      var d := s[1..];
      assert IsDigit(d[|d| - 1]) && s[|s| - 1] == d[|d| - 1];
      assert TrimStart(s) == s;
      assert TrimEnd(s) == s;
      UnsignedDigits(d);
    }
  }

  lemma TrimDigits(s: string)
    requires |s| > 0 && AllDigits(s)
    ensures Trim(s) == s
  {
    assert IsDigit(s[0]) && IsDigit(s[|s| - 1]);
    assert TrimStart(s) == s;
  }

  lemma UnsignedDigits(s: string)
    requires |s| > 0 && AllDigits(s)
    ensures ParseUnsigned(s) == Val(DigitsValue(s) as real)
  {
    var k := IndexOfDot(s);
    assert forall i :: 0 <= i < |s| ==> s[i] != '.';
    assert k == |s|;
    assert s[..k] == s;
    assert DecimalValue(s, "") == DigitsValue(s) as real;
  }

  /** `Number(String(n)) == n` for every natural number. */
  lemma ToNumberOfNat(n: nat)
    ensures ToNumber(NatToString(n)) == Val(n as real)
  {
    NatToStringRoundTrip(n);
  }

  /** The longest prefix of `s` made of ASCII digits. */
  function LeadingDigits(s: string): (p: string)
    ensures p <= s && AllDigits(p)
    ensures |p| == |s| || !IsDigit(s[|p|])
    decreases |s|
  {
    if s != [] && IsDigit(s[0]) then [s[0]] + LeadingDigits(s[1..]) else []
  }

  /** `parseInt(s)` read as the value of the leading digits; `None` stands for `NaN`. */
  function ParseIntPrefix(s: string): (r: Option<nat>)
    ensures r.None? <==> s == [] || !IsDigit(s[0])
  {
    var p := LeadingDigits(s);
    if p == [] then None else Some(DigitsValue(p))
  }

  lemma {:induction false} LeadingDigitsOfDigits(d: string, rest: string)
    requires AllDigits(d)
    requires rest == [] || !IsDigit(rest[0])
    ensures LeadingDigits(d + rest) == d
    decreases |d|
  {
    if d != [] {
      LeadingDigitsOfDigits(d[1..], rest);
      assert (d + rest)[1..] == d[1..] + rest;
    }
  }

  /** `parseInt(String(n) + rest) == n` when `rest` does not start with a digit (`"15 min"` gives 15). */
  lemma ParseIntPrefixOfRendering(n: nat, rest: string)
    requires rest == [] || !IsDigit(rest[0])
    ensures ParseIntPrefix(NatToString(n) + rest) == Some(n)
  {
    LeadingDigitsOfDigits(NatToString(n), rest);
    NatToStringRoundTrip(n);
  }

  /** `Math.round(x)`: the nearest integer, halves rounded up. */
  function MathRound(x: real): (r: int)
    ensures r as real - 0.5 <= x < r as real + 0.5
  {
    (x + 0.5).Floor
  }

  /** Rounding a quotient of integers is integer arithmetic: `Math.round(s / n) == (2s + n) div 2n`. */
  lemma RoundOfQuotient(s: int, n: int)
    requires n > 0
    ensures MathRound(s as real / n as real) == (2 * s + n) / (2 * n)
  {
    var x := s as real / n as real;
    QuotientTimesDivisor(s, n);
    var r := MathRound(x);
    RoundedBounds(s, n, x, r);
    QuotientUnique(2 * s + n, 2 * n, r);
  }

  lemma QuotientTimesDivisor(s: int, n: int)
    requires n > 0
    ensures (s as real / n as real) * n as real == s as real
  {
  }

  lemma ScaleLe(a: real, b: real, c: real)
    requires a <= b && c > 0.0
    ensures a * c <= b * c
  {
  }

  lemma ScaleLt(a: real, b: real, c: real)
    requires a < b && c > 0.0
    ensures a * c < b * c
  {
  }

  /** `(r ± 1/2) n` is half the integer `(2r ± 1) n`. */
  lemma HalfOddProducts(r: int, n: int)
    ensures 2.0 * ((r as real - 0.5) * n as real) == ((2 * r - 1) * n) as real
    ensures 2.0 * ((r as real + 0.5) * n as real) == ((2 * r + 1) * n) as real
  {
    assert ((2 * r - 1) * n) as real == (2 * r - 1) as real * n as real;
    assert ((2 * r + 1) * n) as real == (2 * r + 1) as real * n as real;
  }

  lemma DoubledBounds(s: int, lo: real, hi: real, a: int, b: int)
    requires lo <= s as real < hi
    requires 2.0 * lo == a as real && 2.0 * hi == b as real
    ensures a <= 2 * s < b
  {
  }

  /** From `r - 1/2 <= s/n < r + 1/2`: `2nr <= 2s + n < 2n(r + 1)`. */
  lemma RoundedBounds(s: int, n: int, x: real, r: int)
    requires n > 0 && x * n as real == s as real
    requires r as real - 0.5 <= x < r as real + 0.5
    ensures 2 * n * r <= 2 * s + n < 2 * n * (r + 1)
  {
    ScaleLe(r as real - 0.5, x, n as real);
    ScaleLt(x, r as real + 0.5, n as real);
    HalfOddProducts(r, n);
    DoubledBounds(s, (r as real - 0.5) * n as real, (r as real + 0.5) * n as real, (2 * r - 1) * n, (2 * r + 1) * n);
  }

  /** The Euclidean quotient is the only `r` with `d * r <= a < d * (r + 1)`. */
  lemma QuotientUnique(a: int, d: int, r: int)
    requires d > 0 && d * r <= a < d * (r + 1)
    ensures a / d == r
  {
    var q := a / d;
    assert d * q <= a < d * (q + 1);
    assert q < r ==> d * (q + 1) <= d * r;
    assert q > r ==> d * (r + 1) <= d * q;
  }
}
