/** JavaScript numbers as exact reals: the decimal text of `toString` and `toFixed`,
    and the `Number(text)` conversion back, on plain decimal notation. */
module Numbers {
  import opened Wrappers

  function Pow10(k: nat): (p: nat)
    ensures p >= 1
  {
    if k == 0 then 1 else 10 * Pow10(k - 1)
  }

  function Abs(x: real): (r: real) {
    if x < 0.0 then -x else x
  }

  predicate IsDigit(c: char) {
    '0' <= c <= '9'
  }

  predicate AllDigits(s: string) {
    forall i :: 0 <= i < |s| ==> IsDigit(s[i])
  }

  function Digit(d: nat): (c: char)
    requires d < 10
    ensures IsDigit(c)
  {
    ('0' as int + d) as char
  }

  function DigitValue(c: char): (d: nat)
    requires IsDigit(c)
    ensures d < 10 && Digit(d) == c
  {
    c as int - '0' as int
  }

  /** The value of a run of decimal digits, most significant first. */
  function DigitsValue(s: string): (r: nat)
    requires AllDigits(s)
  {
    if s == [] then 0 else DigitsValue(s[..|s| - 1]) * 10 + DigitValue(s[|s| - 1])
  }

  /** Decimal digits of `n` with no leading zero: what `toString` prints for a natural number. */
  function NatText(n: nat): (s: string)
    ensures s != [] && AllDigits(s)
    ensures |s| > 1 ==> s[0] != '0'
  {
    if n < 10 then [Digit(n)] else NatText(n / 10) + [Digit(n % 10)]
  }

  /** The last `k` decimal digits of `r`, zero-padded on the left to exactly `k` characters. */
  function Padded(r: nat, k: nat): (s: string)
    ensures |s| == k && AllDigits(s)
  {
    if k == 0 then [] else Padded(r / 10, k - 1) + [Digit(r % 10)]
  }

  /** The text of a whole number: a minus sign for negatives, then its digits. */
  function IntText(i: int): (r: string) {
    (if i < 0 then "-" else "") + NatText(if i < 0 then -i else i)
  }

  lemma {:induction false} NatTextValue(n: nat)
    ensures DigitsValue(NatText(n)) == n
  {
    var s := NatText(n);
    if n >= 10 {
      NatTextValue(n / 10);
      assert s[..|s| - 1] == NatText(n / 10);
    }
  }

  lemma {:induction false} PaddedValue(r: nat, k: nat)
    requires r < Pow10(k)
    ensures DigitsValue(Padded(r, k)) == r
  {
    if k > 0 {
      var s := Padded(r, k);
      assert r / 10 < Pow10(k - 1);
      PaddedValue(r / 10, k - 1);
      assert s[..|s| - 1] == Padded(r / 10, k - 1);
    }
  }

  /** `y * 10^k`, by `k` multiplications by ten. */
  function Scale(y: real, k: nat): (r: real) {
    if k == 0 then y else Scale(y, k - 1) * 10.0
  }

  /** `m / 10^k`, by `k` divisions by ten. */
  function Shift(m: real, k: nat): (r: real)
    decreases k
  {
    if k == 0 then m else Shift(m / 10.0, k - 1)
  }

  /** The integer `n` of ECMA-262 `Number.prototype.toFixed(k)`: the one nearest
      to |x| * 10^k, the larger one on a tie. */
  function ScaledMagnitude(x: real, k: nat): (n: nat)
    ensures (n as real) - 0.5 <= Scale(Abs(x), k) < (n as real) + 0.5
  {
    ScaleNonNegative(Abs(x), k);
    (Scale(Abs(x), k) + 0.5).Floor
  }

  /** The digits of `n / 10^k` and, for `k > 0`, a point and the last `k` digits of `n`. */
  function ScaledText(n: nat, k: nat): (s: string)
    ensures s != [] && IsDigit(s[0])
  {
    var whole := NatText(WholePart(n, k));
    var s := whole + (if k == 0 then "" else "." + Padded(FractionPart(n, k), k));
    assert s[0] == whole[0];
    s
  }

  function WholePart(n: nat, k: nat): (r: nat) {
    Quotient(n, Pow10(k))
  }

  function Quotient(n: nat, p: nat): (r: nat)
    requires p > 0
  {
    n / p
  }

  function FractionPart(n: nat, k: nat): (r: nat)
    ensures r < Pow10(k)
  {
    n % Pow10(k)
  }

  /** `x.toFixed(k)` for |x| < 10^21: sign, integer part, and for `k > 0` a point
      followed by exactly `k` digits. A negative `x` keeps its sign even when it
      rounds to zero ((-0.04).toFixed(1) is "-0.0"). */
  function FixedText(x: real, k: nat): (s: string)
    ensures s != []
    ensures s[0] == '-' <==> x < 0.0
    ensures x >= 0.0 ==> IsDigit(s[0])
  {
    var u := ScaledText(ScaledMagnitude(x, k), k);
    if x < 0.0 then "-" + u else u
  }

  /** The value `x.toFixed(k)` denotes: |x| rounded to `k` places, with the sign of `x`. */
  function RoundTo(x: real, k: nat): (r: real)
    ensures -0.5 <= Scale(r, k) - Scale(x, k) <= 0.5
  {
    var n := ScaledMagnitude(x, k);
    RoundToNear(x, k);
    if x < 0.0 then -Shift(n as real, k) else Shift(n as real, k)
  }

  /** `Number(x.toFixed(1))`: `x` rounded to one decimal place (see `RoundToTenthText`). */
  function RoundToTenth(x: real): (r: real)
    ensures -0.05 <= r - x <= 0.05
  {
    var r := RoundTo(x, 1);
    assert Scale(r, 1) == r * 10.0 && Scale(x, 1) == x * 10.0;
    r
  }

  /** `RoundToTenth(x)` is the number the text `x.toFixed(1)` denotes. */
  lemma RoundToTenthText(x: real)
    ensures ParseDecimal(FixedText(x, 1)) == Some(RoundToTenth(x))
  {
    FixedTextValue(x, 1);
  }

  /** Whether `x` has a terminating decimal expansion with at most `k` digits after the point. */
  predicate HasDecimals(x: real, k: nat) {
    var y := Scale(x, k);
    y == y.Floor as real
  }

  /** Most fraction digits a number's `toString` text is modelled for. */
  const MaxFractionDigits: nat := 6

  /** The fewest fraction digits, from `k` up, that `x` needs (or the maximum when it needs more). */
  function FractionDigitsFrom(x: real, k: nat): (d: nat)
    requires k <= MaxFractionDigits
    ensures k <= d <= MaxFractionDigits
    ensures forall j :: k <= j < d ==> !HasDecimals(x, j)
    ensures (exists j :: k <= j <= MaxFractionDigits && HasDecimals(x, j)) ==> HasDecimals(x, d)
    decreases MaxFractionDigits - k
  {
    if HasDecimals(x, k) || k == MaxFractionDigits then k else FractionDigitsFrom(x, k + 1)
  }

  /** `x.toString()`: the shortest plain decimal text that denotes `x`. */
  function NumberText(x: real): (s: string)
    ensures s != []
    ensures s[0] == '-' <==> x < 0.0
    ensures x >= 0.0 ==> IsDigit(s[0])
  {
    FixedText(x, FractionDigitsFrom(x, 0))
  }

  /** Index of the first '.' in `s`, or `|s|` when there is none. */
  function PointIndex(s: string): (i: nat)
    ensures i <= |s|
    ensures forall j :: 0 <= j < i ==> s[j] != '.'
    ensures i < |s| ==> s[i] == '.'
  {
    if s == [] then 0 else if s[0] == '.' then 0 else 1 + PointIndex(s[1..])
  }

  /** The value of a non-empty run of digits. */
  function WholeValue(w: string): (r: Option<real>) {
    if w != [] && AllDigits(w) then Some(DigitsValue(w) as real) else None
  }

  /** The value of non-empty digit runs `w` and `f` written `w.f`. */
  function PointValue(w: string, f: string): (r: Option<real>) {
    if w != [] && AllDigits(w) && f != [] && AllDigits(f) then
      Some(DigitsValue(w) as real + Shift(DigitsValue(f) as real, |f|))
    else None
  }

  /** Digits, optionally followed by a point and more digits. */
  function ParseUnsigned(s: string): (r: Option<real>)
    ensures r.Some? ==> s != [] && IsDigit(s[0]) && IsDigit(s[|s| - 1])
    ensures r.Some? ==> forall i :: 0 <= i < |s| ==> IsDigit(s[i]) || (s[i] == '.' && i == PointIndex(s))
  {
    var i := PointIndex(s);
    if i == |s| then WholeValue(s) else PointValue(s[..i], s[i + 1..])
  }

  /** `Number(s)` on plain decimal notation `[-]digits[.digits]`; `None` for any other text. */
  function ParseDecimal(s: string): (r: Option<real>)
    ensures r.Some? ==> s != [] && IsDigit(s[|s| - 1])
    ensures r.Some? ==> forall i :: 0 <= i < |s| ==> IsDigit(s[i]) || s[i] == '.' || (i == 0 && s[i] == '-')
  {
    if s != [] && s[0] == '-' then
      match ParseUnsigned(s[1..])
      case Some(v) => Some(-v)
      case None => None
    else ParseUnsigned(s)
  }

  lemma PointIndexOfDigits(a: string, b: string)
    requires AllDigits(a)
    ensures PointIndex(a + b) == |a| + PointIndex(b)
  {
    if a == [] {
      assert a + b == b;
    } else {
      assert (a + b)[0] == a[0] && IsDigit(a[0]);
      assert (a + b)[1..] == a[1..] + b;
      PointIndexOfDigits(a[1..], b);
    }
  }

  lemma {:induction false} ScaleNonNegative(y: real, k: nat)
    requires y >= 0.0
    ensures Scale(y, k) >= 0.0
  {
    if k > 0 {
      ScaleNonNegative(y, k - 1);
    }
  }

  lemma {:induction false} ShiftScale(y: real, k: nat)
    ensures Shift(Scale(y, k), k) == y
  {
    if k > 0 {
      assert Scale(y, k) / 10.0 == Scale(y, k - 1);
      ShiftScale(y, k - 1);
    }
  }

  lemma {:induction false} ScaleShift(m: real, k: nat)
    ensures Scale(Shift(m, k), k) == m
    decreases k
  {
    if k > 0 {
      ScaleShift(m / 10.0, k - 1);
      ScaleShiftStep(m, k);
    }
  }

  lemma ScaleShiftStep(m: real, k: nat)
    requires k > 0
    ensures Scale(Shift(m, k), k) == Scale(Shift(m / 10.0, k - 1), k - 1) * 10.0
  {
    assert Shift(m, k) == Shift(m / 10.0, k - 1);
  }

  lemma {:induction false} ScaleNegate(y: real, k: nat)
    ensures Scale(-y, k) == -Scale(y, k)
  {
    if k > 0 {
      ScaleNegate(y, k - 1);
    }
  }

  lemma {:induction false} ScaleAdd(a: real, b: real, k: nat)
    ensures Scale(a + b, k) == Scale(a, k) + Scale(b, k)
  {
    if k > 0 {
      ScaleAdd(a, b, k - 1);
    }
  }

  lemma {:induction false} ShiftAdd(a: real, b: real, k: nat)
    ensures Shift(a + b, k) == Shift(a, k) + Shift(b, k)
    decreases k
  {
    if k > 0 {
      assert (a + b) / 10.0 == a / 10.0 + b / 10.0;
      ShiftAdd(a / 10.0, b / 10.0, k - 1);
    }
  }

  lemma {:induction false} ScaleWhole(q: nat, k: nat)
    ensures Scale(q as real, k) == (q * Pow10(k)) as real
  {
    if k > 0 {
      ScaleWhole(q, k - 1);
      assert q * Pow10(k) == (q * Pow10(k - 1)) * 10;
    }
  }

  /** Rounding moves |x| * 10^k by at most a half. */
  lemma RoundToNear(x: real, k: nat)
    ensures var s := Shift(ScaledMagnitude(x, k) as real, k);
            -0.5 <= Scale(if x < 0.0 then -s else s, k) - Scale(x, k) <= 0.5
  {
    var n := ScaledMagnitude(x, k) as real;
    var s := Shift(n, k);
    ScaleShift(n, k);
    ScaleNegate(s, k);
    ScaleNegate(x, k);
  }

  lemma SplitScaled(n: nat, k: nat)
    ensures (WholePart(n, k) as real) + Shift(FractionPart(n, k) as real, k) == Shift(n as real, k)
  {
    var q := WholePart(n, k);
    var r := FractionPart(n, k);
    assert n == q * Pow10(k) + r;
    ScaleWhole(q, k);
    assert (n as real) == Scale(q as real, k) + (r as real);
    ShiftAdd(Scale(q as real, k), r as real, k);
    ShiftScale(q as real, k);
  }

  lemma ParseWhole(a: string)
    requires a != [] && AllDigits(a)
    ensures ParseUnsigned(a) == Some(DigitsValue(a) as real)
  {
    PointIndexOfDigits(a, "");
    assert a + "" == a;
  }

  lemma ParseWithPoint(a: string, b: string)
    requires AllDigits(a)
    ensures ParseUnsigned(a + "." + b) == PointValue(a, b)
  {
    var u := a + "." + b;
    assert PointIndex(u) == |a| by {
      assert u == a + ("." + b);
      assert ("." + b)[0] == '.';
      PointIndexOfDigits(a, "." + b);
    }
    assert u[..|a|] == a && u[|a| + 1..] == b;
  }

  lemma ScaledTextValue(n: nat, k: nat)
    ensures ParseUnsigned(ScaledText(n, k)) == Some(Shift(n as real, k))
    ensures ScaledText(n, k)[0] != '-'
  {
    var whole := NatText(WholePart(n, k));
    NatTextValue(WholePart(n, k));
    SplitScaled(n, k);
    if k == 0 {
      assert ScaledText(n, k) == whole;
      ParseWhole(whole);
      assert FractionPart(n, k) == 0;
    } else {
      var frac := Padded(FractionPart(n, k), k);
      assert ScaledText(n, k) == whole + "." + frac;
      assert (whole + "." + frac)[0] == whole[0];
      PaddedValue(FractionPart(n, k), k);
      ParseWithPoint(whole, frac);
    }
  }

  /** The text `toFixed` produces reads back as the rounded value. */
  lemma FixedTextValue(x: real, k: nat)
    ensures ParseDecimal(FixedText(x, k)) == Some(RoundTo(x, k))
  {
    var n := ScaledMagnitude(x, k);
    var u := ScaledText(n, k);
    ScaledTextValue(n, k);
    var v := Shift(n as real, k);
    assert ParseUnsigned(u) == Some(v);
    if x < 0.0 {
      assert RoundTo(x, k) == -v;
      assert FixedText(x, k) == "-" + u;
      assert ("-" + u)[1..] == u;
      assert ParseDecimal("-" + u) == Some(-v);
    } else {
      assert RoundTo(x, k) == v;
      assert FixedText(x, k) == u;
      assert ParseDecimal(u) == Some(v);
    }
  }

  lemma FloorOfHalfAbove(m: int)
    ensures ((m as real) + 0.5).Floor == m
  {
  }

  lemma ScaledTextShape(n: nat, k: nat)
    requires k > 0
    ensures var u := ScaledText(n, k);
            var i := PointIndex(u);
            0 < i == |u| - k - 1 && AllDigits(u[..i]) && AllDigits(u[i + 1..])
  {
    var whole := NatText(WholePart(n, k));
    var frac := Padded(FractionPart(n, k), k);
    var u := whole + ("." + frac);
    assert ScaledText(n, k) == u;
    assert PointIndex(u) == |whole| by {
      assert ("." + frac)[0] == '.';
      PointIndexOfDigits(whole, "." + frac);
    }
    assert u[|whole| + 1..] == frac && u[..|whole|] == whole;
  }

  /** For `k > 0`, `toFixed(k)` text has its only point exactly `k` characters from the end,
      followed by digits and preceded by an optional minus sign and at least one digit. */
  lemma FixedTextShape(x: real, k: nat)
    requires k > 0
    ensures var s := FixedText(x, k);
            var i := PointIndex(s);
            var j := if x < 0.0 then 1 else 0;
            j < i == |s| - k - 1 && AllDigits(s[j..i]) && AllDigits(s[i + 1..])
            && (x < 0.0 <==> s[0] == '-')
  {
    var u := ScaledText(ScaledMagnitude(x, k), k);
    ScaledTextShape(ScaledMagnitude(x, k), k);
    if x < 0.0 {
      assert FixedText(x, k) == "-" + u;
      SignedShape(u, k);
    } else {
      assert FixedText(x, k) == u;
      assert u[0..PointIndex(u)] == u[..PointIndex(u)];
    }
  }

  /** A leading minus moves the point one place to the right and keeps the digits either side. */
  lemma SignedShape(u: string, k: nat)
    requires var i := PointIndex(u); 0 < i == |u| - k - 1 && AllDigits(u[..i]) && AllDigits(u[i + 1..])
    ensures var s := "-" + u;
            var i := PointIndex(s);
            1 < i == |s| - k - 1 && AllDigits(s[1..i]) && AllDigits(s[i + 1..])
  {
    var s := "-" + u;
    assert s[1..] == u;
    assert PointIndex(s) == 1 + PointIndex(u);
    var i := PointIndex(u);
    assert s[1..1 + i] == u[..i];
    assert s[1 + i + 1..] == u[i + 1..];
  }


  /** A number with at most `k` fraction digits survives rounding to `k` places unchanged. */
  lemma RoundToExact(x: real, k: nat)
    requires HasDecimals(x, k)
    ensures RoundTo(x, k) == x
  {
    var y := Scale(x, k);
    var m := y.Floor;
    var a := if x < 0.0 then -m else m;
    assert Scale(Abs(x), k) == a as real by {
      if x < 0.0 {
        ScaleNegate(x, k);
      }
    }
    FloorOfHalfAbove(a);
    assert ScaledMagnitude(x, k) == a;
    ShiftScale(Abs(x), k);
  }

  /** Numbers with at most `k` fraction digits are closed under addition. */
  lemma HasDecimalsAdd(a: real, b: real, k: nat)
    requires HasDecimals(a, k) && HasDecimals(b, k)
    ensures HasDecimals(a + b, k)
  {
    ScaleAdd(a, b, k);
    var m, n := Scale(a, k).Floor, Scale(b, k).Floor;
    assert Scale(a + b, k) == (m + n) as real;
  }

  /** What `toFixed(k)` denotes has at most `k` fraction digits. */
  lemma RoundToHasDecimals(x: real, k: nat)
    ensures HasDecimals(RoundTo(x, k), k)
  {
    var n := ScaledMagnitude(x, k);
    var s := Shift(n as real, k);
    ScaleShift(n as real, k);
    var m: int := if x < 0.0 then -(n as int) else n;
    assert Scale(RoundTo(x, k), k) == m as real by {
      if x < 0.0 {
        assert RoundTo(x, k) == -s;
        ScaleNegate(s, k);
      } else {
        assert RoundTo(x, k) == s;
      }
    }
  }

  /** `toString` text reads back as the number itself, for every number with at most
      `MaxFractionDigits` digits after the point. */
  lemma NumberTextValue(x: real, k: nat)
    requires k <= MaxFractionDigits
    ensures HasDecimals(x, k) ==> ParseDecimal(NumberText(x)) == Some(x)
  {
    if HasDecimals(x, k) {
      var d := FractionDigitsFrom(x, 0);
      FixedTextValue(x, d);
      RoundToExact(x, d);
    }
  }

  /** A whole number prints as its plain integer text (305 gives "305"). */
  lemma NumberTextOfInteger(i: int)
    ensures NumberText(i as real) == IntText(i)
  {
    assert HasDecimals(i as real, 0);
    assert FractionDigitsFrom(i as real, 0) == 0;
    assert ScaledMagnitude(i as real, 0) == if i < 0 then -i else i;
  }

  /** A whole number to one decimal place prints as its integer text and ".0" (4 gives "4.0"). */
  lemma FixedOneOfInteger(i: int)
    ensures FixedText(i as real, 1) == IntText(i) + ".0"
  {
    var m: nat := if i < 0 then -i else i;
    assert Scale(Abs(i as real), 1) == (10 * m) as real;
    assert ScaledMagnitude(i as real, 1) == 10 * m;
    assert (10 * m) / 10 == m && (10 * m) % 10 == 0;
    assert Padded(0, 1) == "0";
  }
}
