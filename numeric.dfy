/**
  Numeric building blocks shared by every analysis: sums and means of money
  amounts, the sample variance, the library statistics that cannot be written
  down exactly here (square root and interpolated quantiles, supplied as a
  lawful `Numerics` record), decimal rounding and pandas' NaN.
 */
module Numeric {

  /** A pandas/numpy float that may be NaN. */
  datatype Float = Real(value: real) | NaN

  function Max2(a: real, b: real): real { if a >= b then a else b }
  function Min2(a: real, b: real): real { if a <= b then a else b }

  /** Python's built-in `max(0, x)` when x may be NaN: NaN is never greater than 0, so 0 is kept. */
  function ClampFloat(x: Float): (r: real)
    ensures r >= 0.0
    ensures x.Real? && x.value >= 0.0 ==> r == x.value
  {
    match x
    case NaN => 0.0
    case Real(v) => Max2(0.0, v)
  }

  function Sum(s: seq<real>): real
  {
    if |s| == 0 then 0.0 else Sum(s[..|s| - 1]) + s[|s| - 1]
  }

  function Mean(s: seq<real>): real
    requires |s| > 0
  {
    Sum(s) / (|s| as real)
  }

  /** Sum of squared deviations from m. */
  function SumSq(s: seq<real>, m: real): real
  {
    if |s| == 0 then 0.0 else SumSq(s[..|s| - 1], m) + (s[|s| - 1] - m) * (s[|s| - 1] - m)
  }

  /** pandas' `Series.std()` squared: the sample variance (ddof = 1). */
  function Variance(s: seq<real>): real
    requires |s| >= 2
  {
    SumSq(s, Mean(s)) / ((|s| - 1) as real)
  }

  function SeqMin(s: seq<real>): real
    requires |s| > 0
  {
    if |s| == 1 then s[0] else Min2(SeqMin(s[..|s| - 1]), s[|s| - 1])
  }

  function SeqMax(s: seq<real>): real
    requires |s| > 0
  {
    if |s| == 1 then s[0] else Max2(SeqMax(s[..|s| - 1]), s[|s| - 1])
  }

  predicate Constant(s: seq<real>, c: real)
  {
    forall i :: 0 <= i < |s| ==> s[i] == c
  }

  /**
    The two library statistics the model takes as given: a square root and
    pandas' interpolated `quantile(s, p)`. `Lawful` states what the model
    relies on about them.
   */
  datatype Numerics = Numerics(sqrt: real -> real, quantile: (seq<real>, real) -> real)

  ghost predicate Lawful(num: Numerics)
  {
    && (forall x :: 0.0 <= x ==> 0.0 <= num.sqrt(x) && num.sqrt(x) * num.sqrt(x) == x)
    && num.sqrt(0.0) == 0.0
    && (forall s, p :: 0 < |s| && 0.0 <= p <= 1.0 ==> SeqMin(s) <= num.quantile(s, p) <= SeqMax(s))
    && (forall s, p, q :: 0 < |s| && 0.0 <= p <= q <= 1.0 ==> num.quantile(s, p) <= num.quantile(s, q))
  }

  /** Sample standard deviation of at least two values. */
  function Std(num: Numerics, s: seq<real>): real
    requires |s| >= 2
  {
    num.sqrt(Variance(s))
  }

  /** pandas' `std()`: NaN for fewer than two values. */
  function StdOrNaN(num: Numerics, s: seq<real>): Float
  {
    if |s| < 2 then NaN else Real(Std(num, s))
  }

  function Pow10(d: nat): (r: real)
    ensures r >= 1.0
  {
    if d == 0 then 1.0 else 10.0 * Pow10(d - 1)
  }

  /** Rounds x to the nearest multiple of 1/unit, halves upward. */
  function RoundAt(x: real, unit: real): real
    requires unit > 0.0
  {
    ((x * unit + 0.5).Floor as real) / unit
  }

  /** `round(x, d)`, rounding halves upward on exact reals. */
  function RoundTo(x: real, d: nat): real
  {
    RoundAt(x, Pow10(d))
  }

  /** `round(x)` with no digits, which yields an int. */
  function RoundInt(x: real): int
  {
    (x + 0.5).Floor
  }

  predicate OnGridAt(x: real, unit: real)
  {
    ((x * unit).Floor as real) == x * unit
  }

  /** x has at most d decimal digits. */
  predicate OnGrid(x: real, d: nat)
  {
    OnGridAt(x, Pow10(d))
  }

  // ---------------------------------------------------------------- lemmas

  lemma {:induction false} SumAppend(s: seq<real>, x: real)
    ensures Sum(s + [x]) == Sum(s) + x
  {
    assert (s + [x])[..|s|] == s;
  }

  lemma {:induction false} SumConcat(s: seq<real>, t: seq<real>)
    ensures Sum(s + t) == Sum(s) + Sum(t)
    decreases |t|
  {
    if |t| == 0 {
      assert s + t == s;
    } else {
      var t' := t[..|t| - 1];
      assert s + t == (s + t') + [t[|t| - 1]];
      assert t == t' + [t[|t| - 1]];
      SumAppend(s + t', t[|t| - 1]);
      SumAppend(t', t[|t| - 1]);
      SumConcat(s, t');
    }
  }

  lemma {:induction false} SumConstant(s: seq<real>, c: real)
    requires Constant(s, c)
    ensures Sum(s) == (|s| as real) * c
  {
    if |s| > 0 {
      SumConstant(s[..|s| - 1], c);
    }
  }

  /** Every element multiplied by k, e.g. amounts converted to another currency unit. */
  function Scale(s: seq<real>, k: real): (r: seq<real>)
    ensures |r| == |s| && forall i :: 0 <= i < |s| ==> r[i] == s[i] * k
  {
    seq(|s|, i requires 0 <= i < |s| => s[i] * k)
  }

  lemma {:induction false} SumScale(s: seq<real>, k: real)
    ensures Sum(Scale(s, k)) == Sum(s) * k
  {
    if |s| > 0 {
      var s' := s[..|s| - 1];
      forall i | 0 <= i < |s'| ensures Scale(s, k)[..|s| - 1][i] == Scale(s', k)[i] {
      }
      assert Scale(s, k)[..|s| - 1] == Scale(s', k);
      SumScale(s', k);
    }
  }

  lemma MeanScale(s: seq<real>, k: real)
    requires |s| > 0
    ensures Mean(Scale(s, k)) == Mean(s) * k
  {
    SumScale(s, k);
  }

  lemma {:induction false} SumBounds(s: seq<real>, lo: real, hi: real)
    requires forall i :: 0 <= i < |s| ==> lo <= s[i] <= hi
    ensures lo * (|s| as real) <= Sum(s) <= hi * (|s| as real)
  {
    if |s| > 0 {
      SumBounds(s[..|s| - 1], lo, hi);
    }
  }

  /** A mean lies within any bounds that hold for every element. */
  lemma MeanBounds(s: seq<real>, lo: real, hi: real)
    requires |s| > 0 && forall i :: 0 <= i < |s| ==> lo <= s[i] <= hi
    ensures lo <= Mean(s) <= hi
  {
    SumBounds(s, lo, hi);
    DivBetween(lo, Sum(s), hi, |s| as real);
  }

  lemma {:induction false} SumNonNegative(s: seq<real>)
    requires forall i :: 0 <= i < |s| ==> s[i] >= 0.0
    ensures Sum(s) >= 0.0
  {
    if |s| > 0 {
      SumNonNegative(s[..|s| - 1]);
    }
  }

  lemma {:induction false} SumSqNonNegative(s: seq<real>, m: real)
    ensures SumSq(s, m) >= 0.0
  {
    if |s| > 0 {
      SumSqNonNegative(s[..|s| - 1], m);
      var d := s[|s| - 1] - m;
      assert d * d >= 0.0;
    }
  }

  lemma {:induction false} SumSqConstant(s: seq<real>, c: real)
    requires Constant(s, c)
    ensures SumSq(s, c) == 0.0
  {
    if |s| > 0 {
      SumSqConstant(s[..|s| - 1], c);
    }
  }

  lemma MeanConstant(s: seq<real>, c: real)
    requires |s| > 0 && Constant(s, c)
    ensures Mean(s) == c
  {
    SumConstant(s, c);
    var n := |s| as real;
    assert n * c / n == c;
  }

  /** The sample variance is never negative, and it is 0 on a constant series. */
  lemma VarianceFacts(s: seq<real>)
    requires |s| >= 2
    ensures Variance(s) >= 0.0
    ensures (forall i :: 0 <= i < |s| ==> s[i] == s[0]) ==> Variance(s) == 0.0
  {
    SumSqNonNegative(s, Mean(s));
    if forall i :: 0 <= i < |s| ==> s[i] == s[0] {
      MeanConstant(s, s[0]);
      SumSqConstant(s, s[0]);
    }
  }

  /** std >= 0, and std = 0 on a constant series, for a lawful square root. */
  lemma StdFacts(num: Numerics, s: seq<real>)
    requires Lawful(num) && |s| >= 2
    ensures Std(num, s) >= 0.0
    ensures (forall i :: 0 <= i < |s| ==> s[i] == s[0]) ==> Std(num, s) == 0.0
  {
    VarianceFacts(s);
    var r := num.sqrt(Variance(s));
    assert r >= 0.0 && r * r == Variance(s);
    if forall i :: 0 <= i < |s| ==> s[i] == s[0] {
      assert Variance(s) == 0.0;
    }
  }

  lemma {:induction false} MinMaxBounds(s: seq<real>)
    requires |s| > 0
    ensures SeqMin(s) <= SeqMax(s)
    ensures forall i :: 0 <= i < |s| ==> SeqMin(s) <= s[i] <= SeqMax(s)
  {
    if |s| > 1 {
      MinMaxBounds(s[..|s| - 1]);
      assert forall i :: 0 <= i < |s| - 1 ==> s[..|s| - 1][i] == s[i];
    }
  }

  lemma {:induction false} MinMaxConstant(s: seq<real>, c: real)
    requires |s| > 0 && Constant(s, c)
    ensures SeqMin(s) == c && SeqMax(s) == c
  {
    if |s| > 1 {
      MinMaxConstant(s[..|s| - 1], c);
    }
  }

  /** On a constant series every lawful quantile is that constant, so Q1 = Q3. */
  lemma QuantileConstant(num: Numerics, s: seq<real>, c: real, p: real)
    requires Lawful(num) && |s| > 0 && Constant(s, c) && 0.0 <= p <= 1.0
    ensures num.quantile(s, p) == c
  {
    MinMaxConstant(s, c);
  }

  lemma MulDivCancel(a: real, n: real)
    requires n > 0.0
    ensures a * n / n == a
  {
  }

  lemma DivStrict(a: real, b: real, p: real)
    requires a < b && p > 0.0
    ensures a / p < b / p
  {
    assert b / p - a / p == (b - a) / p;
  }

  lemma DivBetween(lo: real, x: real, hi: real, n: real)
    requires n > 0.0 && lo * n <= x <= hi * n
    ensures lo <= x / n <= hi
  {
    DivMono(lo * n, x, n);
    DivMono(x, hi * n, n);
    MulDivCancel(lo, n);
    MulDivCancel(hi, n);
  }

  lemma RelativeChangeScale(f: real, g: real, k: real)
    requires f != 0.0 && k > 0.0
    ensures (g * k - f * k) / (f * k) == (g - f) / f
  {
    assert g * k - f * k == (g - f) * k;
  }

  lemma DivMulCancel(b: real, c: real)
    requires c != 0.0
    ensures c * (b / c) == b
  {
  }

  lemma MulNonNegative(a: real, b: real)
    requires a >= 0.0 && b >= 0.0
    ensures a * b >= 0.0
  {
  }

  /** x multiplied by f and rounded to the cent. */
  function ScaledCents(x: real, f: real): real
  {
    RoundTo(x * f, 2)
  }

  lemma ScaledCentsMonotone(x: real, y: real, f: real)
    requires x <= y && f >= 0.0
    ensures ScaledCents(x, f) <= ScaledCents(y, f)
  {
    MulMono(x, y, f);
    RoundMonotone(x * f, y * f, 2);
  }

  lemma ScaledCentsNonNegative(x: real, f: real)
    requires x >= 0.0 && f >= 0.0
    ensures ScaledCents(x, f) >= 0.0
  {
    MulNonNegative(x, f);
    RoundNonNegative(x * f, 2);
  }

  /** Each element multiplied by f and rounded to the cent. */
  function RoundedScale(s: seq<real>, f: real): (r: seq<real>)
    ensures |r| == |s| && forall i :: 0 <= i < |s| ==> r[i] == ScaledCents(s[i], f)
  {
    seq(|s|, i requires 0 <= i < |s| => ScaledCents(s[i], f))
  }

  lemma Distribute(a: real, b: real, f: real)
    ensures (a + b) * f == a * f + b * f
  {
  }

  /** The element-wise difference of two sequences of the same length. */
  function Diff(a: seq<real>, b: seq<real>): (r: seq<real>)
    requires |a| == |b|
    ensures |r| == |a| && forall i :: 0 <= i < |a| ==> r[i] == a[i] - b[i]
  {
    seq(|a|, i requires 0 <= i < |a| => a[i] - b[i])
  }

  lemma {:induction false} SumDiff(a: seq<real>, b: seq<real>)
    requires |a| == |b|
    ensures Sum(Diff(a, b)) == Sum(a) - Sum(b)
  {
    if |a| > 0 {
      var k := |a| - 1;
      assert Diff(a, b)[..k] == Diff(a[..k], b[..k]);
      SumDiff(a[..k], b[..k]);
    }
  }

  lemma RoundedScaleErrors(s: seq<real>, f: real)
    ensures var d := Diff(RoundedScale(s, f), Scale(s, f));
      forall i :: 0 <= i < |d| ==> -0.005 <= d[i] <= 0.005
  {
    var d := Diff(RoundedScale(s, f), Scale(s, f));
    forall i | 0 <= i < |d| ensures -0.005 <= d[i] <= 0.005 {
      RoundCentsError(s[i] * f);
    }
  }

  /** Terms within half a cent of their targets add up to within half a cent per term of the targets' sum. */
  lemma DiffSumBound(r: seq<real>, c: seq<real>)
    requires |r| == |c|
    requires forall i :: 0 <= i < |r| ==> -0.005 <= Diff(r, c)[i] <= 0.005
    ensures -0.005 * (|r| as real) <= Sum(r) - Sum(c) <= 0.005 * (|r| as real)
  {
    var d := Diff(r, c);
    assert |d| == |r|;
    SumBounds(d, -0.005, 0.005);
    SumDiff(r, c);
    HalfCentBand(Sum(d), Sum(r), Sum(c), |r| as real);
  }

  lemma HalfCentBand(x: real, a: real, b: real, n: real)
    requires x == a - b && -0.005 * n <= x <= 0.005 * n
    ensures -0.005 * n <= a - b <= 0.005 * n
  {
  }

  /** Rounding n scaled values to the cent moves their sum by at most half a cent each. */
  lemma RoundedScaleSumError(s: seq<real>, f: real)
    ensures -0.005 * (|s| as real) <= Sum(RoundedScale(s, f)) - Sum(s) * f <= 0.005 * (|s| as real)
  {
    RoundedScaleErrors(s, f);
    DiffSumBound(RoundedScale(s, f), Scale(s, f));
    SumScale(s, f);
  }

  lemma MulMono(a: real, b: real, p: real)
    requires a <= b && p >= 0.0
    ensures a * p <= b * p
  {
  }

  lemma DivMono(a: real, b: real, p: real)
    requires a <= b && p > 0.0
    ensures a / p <= b / p
  {
    assert a / p * p == a && b / p * p == b;
  }

  lemma RoundAtMonotone(x: real, y: real, p: real)
    requires x <= y && p > 0.0
    ensures RoundAt(x, p) <= RoundAt(y, p)
  {
    MulMono(x, y, p);
    var fx, fy := (x * p + 0.5).Floor, (y * p + 0.5).Floor;
    assert fx <= fy;
    DivMono(fx as real, fy as real, p);
  }

  /** Rounding is monotone. */
  lemma RoundMonotone(x: real, y: real, d: nat)
    requires x <= y
    ensures RoundTo(x, d) <= RoundTo(y, d)
  {
    RoundAtMonotone(x, y, Pow10(d));
  }

  lemma RoundZero(d: nat)
    ensures RoundTo(0.0, d) == 0.0
  {
    RoundFixesGrid(0.0, d);
  }

  lemma RoundNonNegative(x: real, d: nat)
    requires x >= 0.0
    ensures RoundTo(x, d) >= 0.0
  {
    RoundMonotone(0.0, x, d);
    RoundZero(d);
  }

  lemma RoundAtError(x: real, p: real)
    requires p > 0.0
    ensures -0.5 / p < RoundAt(x, p) - x <= 0.5 / p
  {
    var f := (x * p + 0.5).Floor as real;
    assert x * p - 0.5 < f <= x * p + 0.5;
    assert RoundAt(x, p) == f / p;
    assert f / p - x == (f - x * p) / p;
    DivMono(f - x * p, 0.5, p);
    DivMono(-0.5, f - x * p, p);
  }

  /** Rounding to two digits moves a value by at most half a cent. */
  lemma RoundCentsError(x: real)
    ensures -0.005 < RoundTo(x, 2) - x <= 0.005
  {
    assert Pow10(2) == 100.0;
    RoundAtError(x, 100.0);
  }

  lemma RoundAtOnGrid(x: real, p: real)
    requires p > 0.0
    ensures OnGridAt(RoundAt(x, p), p)
  {
    var f := (x * p + 0.5).Floor;
    assert RoundAt(x, p) * p == f as real;
  }

  lemma RoundOnGrid(x: real, d: nat)
    ensures OnGrid(RoundTo(x, d), d)
  {
    RoundAtOnGrid(x, Pow10(d));
  }

  lemma RoundAtFixes(x: real, p: real)
    requires p > 0.0 && OnGridAt(x, p)
    ensures RoundAt(x, p) == x
  {
    var k := (x * p).Floor;
    assert (x * p + 0.5).Floor == k;
    assert (k as real) / p == x;
  }

  /** A value that already has d digits is left unchanged by rounding to d digits. */
  lemma RoundFixesGrid(x: real, d: nat)
    requires OnGrid(x, d)
    ensures RoundTo(x, d) == x
  {
    RoundAtFixes(x, Pow10(d));
  }

  lemma GridAddAt(x: real, y: real, p: real)
    requires p > 0.0 && OnGridAt(x, p) && OnGridAt(y, p)
    ensures OnGridAt(x + y, p)
  {
    var i, j := (x * p).Floor, (y * p).Floor;
    assert (x + y) * p == x * p + y * p;
    assert (x + y) * p == (i + j) as real;
  }

  lemma {:induction false} GridSum(s: seq<real>, d: nat)
    requires forall i :: 0 <= i < |s| ==> OnGrid(s[i], d)
    ensures OnGrid(Sum(s), d)
  {
    if |s| == 0 {
      assert OnGridAt(0.0, Pow10(d));
    } else {
      GridSum(s[..|s| - 1], d);
      GridAddAt(Sum(s[..|s| - 1]), s[|s| - 1], Pow10(d));
    }
  }

  lemma {:induction false} Pow10Integral(d: nat)
    ensures Pow10(d).Floor as real == Pow10(d)
  {
    if d > 0 {
      Pow10Integral(d - 1);
      var k := Pow10(d - 1).Floor;
      assert Pow10(d) == (10 * k) as real;
    }
  }

  /** Whole numbers have no decimal digits to lose. */
  lemma IntOnGrid(n: int, d: nat)
    ensures OnGrid(n as real, d)
  {
    Pow10Integral(d);
    var k := Pow10(d).Floor;
    assert (n as real) * Pow10(d) == (n * k) as real;
  }

  /** Rounding to d digits stays between two whole-number bounds. */
  lemma RoundWithin(x: real, lo: int, hi: int, d: nat)
    requires lo as real <= x <= hi as real
    ensures lo as real <= RoundTo(x, d) <= hi as real
  {
    IntOnGrid(lo, d);
    IntOnGrid(hi, d);
    RoundMonotone(lo as real, x, d);
    RoundMonotone(x, hi as real, d);
    RoundFixesGrid(lo as real, d);
    RoundFixesGrid(hi as real, d);
  }

  lemma InvertRatio(a: real, b: real)
    requires a != 0.0 && b != 0.0
    ensures 1.0 / (a / b) == b / a
  {
  }
}
