/** JavaScript numbers as the crawler uses them: `parseFloat`, `toFixed(2)`, the
    truthiness test `if (x)`, the comparison `x > 0` and the `|| 0` default. Values are
    exact reals; the rounding that `parseFloat(x.toFixed(2))` performs is modelled
    through the two string conversions themselves. */
module JsNumber {
  import opened JsText

  /** A number: NaN or a finite value. */
  datatype Num = NaN | Fin(v: real)

  /** `if (x)` on a number: false for 0 and NaN. */
  predicate Truthy(n: Num) {
    n.Fin? && n.v != 0.0
  }

  /** `x > 0`: false for NaN. */
  predicate Positive(n: Num) {
    n.Fin? && n.v > 0.0
  }

  /** `x || 0`: NaN and 0 both become 0. */
  function OrZero(n: Num): (r: Num)
    ensures r.Fin?
    ensures Truthy(n) ==> r == n
    ensures !Truthy(n) ==> r == Fin(0.0)
  {
    if Truthy(n) then n else Fin(0.0)
  }

  function Negate(n: Num): Num {
    match n
    case NaN => NaN
    case Fin(x) => Fin(-x)
  }

  /** `a - b`. */
  function Minus(a: Num, b: Num): Num {
    if a.Fin? && b.Fin? then Fin(a.v - b.v) else NaN
  }

  /** `a * k` for a constant factor `k`. */
  function Times(a: Num, k: real): Num {
    match a
    case NaN => NaN
    case Fin(x) => Fin(x * k)
  }

  /** The value of the decimal literal with integer digits `ip` and fraction digits `fp`. */
  function DecimalValue(ip: string, fp: string): real
    requires AllDigits(ip) && AllDigits(fp)
  {
    DigitsValue(ip) as real + DigitsValue(fp) as real / Pow10(|fp|) as real
  }

  /** The value of an unsigned decimal literal `digits[.digits]` or `.digits` at the
      front of `u`, NaN when `u` does not start with one. */
  function ParseUnsigned(u: string): Num {
    var i := Span(u, 0, IsDigit);
    var frac := if i < |u| && u[i] == '.' then u[i + 1..Span(u, i + 1, IsDigit)] else "";
    if i == 0 && |frac| == 0 then NaN
    else Fin(DecimalValue(u[..i], frac))
  }

  /** `parseFloat(s)`: leading white space is skipped, an optional sign is read, and the
      longest decimal literal that follows gives the value; without one the result is NaN. */
  function ParseFloat(s: string): Num {
    var t := s[Span(s, 0, IsSpace)..];
    if |t| > 0 && t[0] == '-' then Negate(ParseUnsigned(t[1..]))
    else if |t| > 0 && t[0] == '+' then ParseUnsigned(t[1..])
    else ParseUnsigned(t)
  }

  /** A plain string of digits reads as the number it denotes. */
  lemma ParseDigits(u: string)
    requires |u| > 0 && AllDigits(u)
    ensures ParseFloat(u) == Fin(DigitsValue(u) as real)
  {
    NoLeadingSpace(u);
    assert ParseFloat(u) == ParseUnsigned(u);
    UnsignedDigits(u);
  }

  lemma UnsignedDigits(u: string)
    requires |u| > 0 && AllDigits(u)
    ensures ParseUnsigned(u) == Fin(DigitsValue(u) as real)
  {
    SpanUnique(u, 0, IsDigit, |u|);
    assert u[..|u|] == u;
    assert DecimalValue(u, "") == DigitsValue(u) as real by {
      assert DigitsValue("") == 0 && Pow10(0) == 1;
    }
  }

  /** `parseFloat(s || 0)`: the empty string reads as the number 0. */
  function ParseOrZero(s: string): (r: Num)
    ensures s == "" ==> r == Fin(0.0)
    ensures s != "" ==> r == ParseFloat(s)
  {
    if s == "" then Fin(0.0) else ParseFloat(s)
  }

  /** The decimal digits of `n`, padded with zeros to at least three (`toFixed` step 10.b). */
  function FixedDigits(n: nat): (p: string)
    ensures |p| >= 3 && AllDigits(p) && DigitsValue(p) == n
  {
    var m := NatToString(n);
    if |m| <= 2 then
      LeadingZeros(3 - |m|, m);
      Repeat('0', 3 - |m|) + m
    else m
  }

  /** The digits of `x.toFixed(2)` for `x >= 0`: the whole number of hundredths nearest
      to `x` (the larger one on a tie), with a point before the last two digits. */
  function FixedMagnitude(x: real): string
    requires x >= 0.0
  {
    var p := FixedDigits((x * 100.0 + 0.5).Floor);
    p[..|p| - 2] + "." + p[|p| - 2..]
  }

  /** `x.toFixed(2)`. */
  function ToFixed2(n: Num): string {
    match n
    case NaN => "NaN"
    case Fin(x) => if x < 0.0 then "-" + FixedMagnitude(-x) else FixedMagnitude(x)
  }

  /** `parseFloat(x.toFixed(2))`, the expression the crawler writes for every rounding,
      taken literally through its two string conversions. */
  function FixedThenParse(n: Num): Num {
    ParseFloat(ToFixed2(n))
  }

  /** `round2`: a number to the nearest hundredth, halves away from zero; NaN stays NaN.
      `Round2MatchesToFixed` shows that `FixedThenParse` computes exactly this. */
  function Round2(n: Num): (r: Num)
    ensures r.NaN? <==> n.NaN?
  {
    match n
    case NaN => NaN
    case Fin(x) => Fin(RoundHalfAway(x))
  }

  /** Rounding to hundredths, halves away from zero: the arithmetic meaning of `Round2`. */
  function RoundHalfAway(x: real): real {
    if x < 0.0 then -((-x * 100.0 + 0.5).Floor as real) / 100.0
    else (x * 100.0 + 0.5).Floor as real / 100.0
  }

  lemma FloorBounds(y: real)
    ensures y.Floor as real <= y < y.Floor as real + 1.0
  {
  }

  /** A whole number of hundredths no more than half a hundredth away from `x`. */
  lemma RoundHalfAwayNearest(x: real)
    ensures (RoundHalfAway(x) * 100.0).Floor as real == RoundHalfAway(x) * 100.0
    ensures -0.005 <= RoundHalfAway(x) - x <= 0.005
  {
    var y := if x < 0.0 then -x * 100.0 + 0.5 else x * 100.0 + 0.5;
    var n := y.Floor;
    FloorBounds(y);
    var r := if x < 0.0 then -(n as real) else n as real;
    assert RoundHalfAway(x) == r / 100.0;
    assert RoundHalfAway(x) * 100.0 == r;
    assert r.Floor == if x < 0.0 then -n else n;
  }

  lemma RoundHalfAwayMonotone(x: real, y: real)
    requires x <= y
    ensures RoundHalfAway(x) <= RoundHalfAway(y)
  {
    if 0.0 <= x {
      FloorBounds(x * 100.0 + 0.5);
      FloorBounds(y * 100.0 + 0.5);
      assert (x * 100.0 + 0.5).Floor <= (y * 100.0 + 0.5).Floor;
    } else if y < 0.0 {
      FloorBounds(-x * 100.0 + 0.5);
      FloorBounds(-y * 100.0 + 0.5);
      assert (-y * 100.0 + 0.5).Floor <= (-x * 100.0 + 0.5).Floor;
    } else {
      FloorBounds(-x * 100.0 + 0.5);
      FloorBounds(y * 100.0 + 0.5);
      assert (-x * 100.0 + 0.5).Floor >= 0;
      assert (y * 100.0 + 0.5).Floor >= 0;
    }
  }

  /** `parseFloat` reads `a.b` as the number it denotes. */
  lemma ParseDecimal(a: string, b: string)
    requires AllDigits(a) && AllDigits(b) && |a| > 0
    ensures ParseUnsigned(a + "." + b) == Fin(DecimalValue(a, b))
  {
    var u := a + "." + b;
    var k := |a|;
    assert forall i :: 0 <= i < k ==> u[i] == a[i];
    assert u[k] == '.';
    SpanUnique(u, 0, IsDigit, k);
    assert forall i :: k + 1 <= i < |u| ==> u[i] == b[i - k - 1];
    SpanUnique(u, k + 1, IsDigit, |u|);
    assert u[..k] == a;
    assert u[k + 1..|u|] == b;

  }

  /** The digits written by `FixedMagnitude(x)` read back as the nearest hundredth. */
  lemma ParseFixedMagnitude(x: real)
    requires x >= 0.0
    ensures ParseUnsigned(FixedMagnitude(x)) == Fin(RoundHalfAway(x))
    ensures IsDigit(FixedMagnitude(x)[0])
  {
    var n := (x * 100.0 + 0.5).Floor;
    var p := FixedDigits(n);
    var k := |p| - 2;
    var a, b := p[..k], p[k..];
    FixedSplit(n);
    ParseDecimal(a, b);
    assert FixedMagnitude(x) == a + "." + b;
    Hundredths(a, b, n);
  }

  /** The digits of `n` hundredths fall into whole units and two places of hundredths. */
  lemma FixedSplit(n: nat)
    ensures var p := FixedDigits(n);
            var a, b := p[..|p| - 2], p[|p| - 2..];
            && |a| > 0 && |b| == 2 && AllDigits(a) && AllDigits(b)
            && DigitsValue(a) * 100 + DigitsValue(b) == n
  {
    var p := FixedDigits(n);
    var a, b := p[..|p| - 2], p[|p| - 2..];
    DigitsSplit(p, |p| - 2);
    DigitsConcat(a, b);
    assert Pow10(|b|) == 100;
  }

  /** Both sides of a cut through a digit string are digit strings. */
  lemma DigitsSplit(p: string, k: nat)
    requires k <= |p| && AllDigits(p)
    ensures AllDigits(p[..k]) && AllDigits(p[k..]) && p == p[..k] + p[k..]
  {
    forall i | 0 <= i < |p| - k ensures IsDigit(p[k..][i]) {
      assert p[k..][i] == p[k + i];
    }
  }

  lemma Hundredths(a: string, b: string, n: int)
    requires AllDigits(a) && AllDigits(b) && |b| == 2
    requires DigitsValue(a) * 100 + DigitsValue(b) == n
    ensures DecimalValue(a, b) == n as real / 100.0
  {
    assert Pow10(|b|) == 100;
    var da, db := DigitsValue(a), DigitsValue(b);
    assert da as real + db as real / 100.0 == n as real / 100.0;
  }

  /** `parseFloat` skips no white space in front of a digit or a sign. */
  lemma NoLeadingSpace(s: string)
    requires |s| > 0 && (IsDigit(s[0]) || s[0] == '-')
    ensures s[Span(s, 0, IsSpace)..] == s
  {
    assert !IsSpace(s[0]);
    SpanUnique(s, 0, IsSpace, 0);
  }

  lemma FixedThenParseNonNegative(x: real)
    requires x >= 0.0
    ensures FixedThenParse(Fin(x)) == Fin(RoundHalfAway(x))
  {
    ParseFixedMagnitude(x);
    var s := FixedMagnitude(x);
    assert ToFixed2(Fin(x)) == s;
    NoLeadingSpace(s);
    assert ParseFloat(s) == ParseUnsigned(s);
  }

  lemma FixedThenParseNegative(y: real)
    requires y > 0.0
    ensures FixedThenParse(Fin(-y)) == Fin(-RoundHalfAway(y))
  {
    ParseFixedMagnitude(y);
    var m := FixedMagnitude(y);
    var s := "-" + m;
    assert ToFixed2(Fin(-y)) == s;
    NoLeadingSpace(s);
    assert s[1..] == m;
  }

  /** "NaN" has no digits, so it parses back as NaN. */
  lemma FixedThenParseNaN()
    ensures FixedThenParse(NaN) == NaN
  {
    var s := "NaN";
    assert ToFixed2(NaN) == s;
    assert !IsSpace(s[0]);
    SpanUnique(s, 0, IsSpace, 0);
    assert s[0..] == s;
    assert !IsDigit(s[0]);
    SpanUnique(s, 0, IsDigit, 0);
  }

  lemma RoundHalfAwayOdd(y: real)
    requires y > 0.0
    ensures RoundHalfAway(-y) == -RoundHalfAway(y)
  {
  }

  /** `parseFloat(x.toFixed(2))` rounds to hundredths, halves away from zero; NaN stays NaN. */
  lemma Round2MatchesToFixed(n: Num)
    ensures FixedThenParse(n) == Round2(n)
  {
    match n
    case NaN =>
      FixedThenParseNaN();
    case Fin(x) =>
      if x < 0.0 {
        var y := -x;
        assert x == -y;
        FixedThenParseNegative(y);
        RoundHalfAwayOdd(y);
      } else {
        FixedThenParseNonNegative(x);
      }
  }
}
