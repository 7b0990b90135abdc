/**
  The deterministic rules of anomaly detection: the per-row features
  (rolling mean of the last seven amounts and the amount's ratio to it), the
  sufficiency gate, the z-score severity and the reason text of each flagged
  expense, the ordering by isolation score and the statistics block, and the
  per-category interquartile-range outlier count. The isolation forest's
  labels and scores are an input (`Forest`).
 */
module Anomaly {
  import opened Numeric
  import opened Texts
  import opened Options
  import opened Ledger
  import opened Config
  import opened Sorting
  import opened DataFetcher

  // ---------------------------------------------------------------- features

  /** A float quotient after `fillna(0)`: 0/0 is NaN and becomes 0, x/0 is an infinity. */
  datatype Ratio = Finite(value: real) | PosInf | NegInf

  /** `amount / rolling_mean` in float arithmetic, after `fillna(0)`. */
  function RatioOf(a: real, m: real): Ratio
  {
    if m != 0.0 then Finite(a / m)
    else if a > 0.0 then PosInf
    else if a < 0.0 then NegInf
    else Finite(0.0)
  }

  /** `ratio > 3` on a float that may be infinite. */
  predicate AboveThree(r: Ratio)
  {
    match r
    case Finite(v) => v > 3.0
    case PosInf => true
    case NegInf => false
  }

  /** The feature columns the rules read: weekday, day of month, rolling mean and ratio. */
  datatype Feature = Feature(dayOfWeek: int, dayOfMonth: int, rollingMean: real, ratio: Ratio)

  /** The rolling window of at most seven amounts ending at row i (`min_periods=1`). */
  function Window(s: seq<real>, i: nat): (r: seq<real>)
    requires i < |s|
    ensures 1 <= |r| <= 7 && r[|r| - 1] == s[i]
    ensures |r| == if i >= 6 then 7 else i + 1
  {
    s[if i >= 6 then i - 6 else 0..i + 1]
  }

  /**
    `prepare_features` for row i: with more than seven rows the rolling mean
    and the amount's ratio to it; otherwise the overall mean and the ratio
    1.0.
   */
  function FeatureOf(rows: Rows, i: nat): Feature
    requires i < |rows|
  {
    var t := rows[i];
    if |rows| > 7 then
      var m := Mean(Window(Amounts(rows), i));
      Feature(DayOfWeek(t), DayOfMonth(t), m, RatioOf(t.amount, m))
    else Feature(DayOfWeek(t), DayOfMonth(t), Mean(Amounts(rows)), Finite(1.0))
  }

  function FeaturesOf(rows: Rows): (r: seq<Feature>)
    ensures |r| == |rows| && forall i :: 0 <= i < |rows| ==> r[i] == FeatureOf(rows, i)
  {
    seq(|rows|, i requires 0 <= i < |rows| => FeatureOf(rows, i))
  }

  /** The feature columns, assigned one after another. */
  method PrepareFeatures(rows: Rows) returns (features: seq<Feature>)
    ensures features == FeaturesOf(rows)
  {
    var amounts := Amounts(rows);
    features := [];
    if |rows| > 7 {
      for i := 0 to |rows|
        invariant |features| == i && forall j :: 0 <= j < i ==> features[j] == FeatureOf(rows, j)
      {
        var rolling := Mean(Window(amounts, i));
        features := features + [Feature(DayOfWeek(rows[i]), DayOfMonth(rows[i]), rolling, RatioOf(rows[i].amount, rolling))];
      }
    } else if |rows| > 0 {
      var overall := Mean(amounts);
      for i := 0 to |rows|
        invariant |features| == i && forall j :: 0 <= j < i ==> features[j] == FeatureOf(rows, j)
      {
        features := features + [Feature(DayOfWeek(rows[i]), DayOfMonth(rows[i]), overall, Finite(1.0))];
      }
    }
  }

  function RollingMeans(features: seq<Feature>): (r: seq<real>)
    ensures |r| == |features| && forall i :: 0 <= i < |features| ==> r[i] == features[i].rollingMean
  {
    seq(|features|, i requires 0 <= i < |features| => features[i].rollingMean)
  }

  // ---------------------------------------------------------------- severity and reason

  datatype Severity = High | Medium | Low

  /** `(amount - mean) / std`, or 0 without a positive spread. */
  function ZScore(amount: real, mean: real, std: real): real
  {
    if std > 0.0 then (amount - mean) / std else 0.0
  }

  function SeverityOf(z: real): Severity
  {
    if z > 3.0 then High else if z > 2.0 then Medium else Low
  }

  function SeverityRank(s: Severity): nat
  {
    match s
    case Low => 0
    case Medium => 1
    case High => 2
  }

  /** "Amount is {round(amount / mean, 1)}x higher than average"; a zero mean gives `inf`. */
  function TimesAverage(amount: real, mean: real): Text
  {
    [Lit("Amount is "), if mean != 0.0 then Repr(Real(RoundTo(amount / mean, 1))) else Lit("inf"),
     Lit("x higher than average")]
  }

  const Deviation: Text := Say("Significant deviation from recent spending pattern")
  const Weekend: Text := Say("Unusually high weekend spending")
  const Statistical: Text := Say("Statistical anomaly detected in spending pattern")

  /** The weekend test as written: weekday 6 (Sunday) or 0, which is Monday. */
  predicate WeekendAsWritten(dow: int)
  {
    dow == 6 || dow == 0
  }

  /** The clauses of `_generate_anomaly_reason`, in order, before the default. */
  function ReasonClauses(amount: real, ratio: Ratio, dow: int, mean: real): seq<Text>
  {
    (if amount > mean * 3.0 then [TimesAverage(amount, mean)]
     else if amount > mean * 2.0 then [TimesAverage(amount, mean)]
     else [])
    + (if AboveThree(ratio) then [Deviation] else [])
    + (if WeekendAsWritten(dow) && amount > mean then [Weekend] else [])
  }

  function AnomalyReason(amount: real, ratio: Ratio, dow: int, mean: real): Text
  {
    var clauses := ReasonClauses(amount, ratio, dow, mean);
    Join(if clauses == [] then [Statistical] else clauses, "; ")
  }

  /** `_generate_anomaly_reason`, appending one clause after another. */
  method GenerateAnomalyReason(amount: real, ratio: Ratio, dow: int, mean: real) returns (reason: Text)
    ensures reason == AnomalyReason(amount, ratio, dow, mean)
  {
    var reasons: seq<Text> := [];
    if amount > mean * 3.0 {
      reasons := reasons + [TimesAverage(amount, mean)];
    } else if amount > mean * 2.0 {
      reasons := reasons + [TimesAverage(amount, mean)];
    }
    if AboveThree(ratio) {
      reasons := reasons + [Deviation];
    }
    if dow == 6 || dow == 0 {
      if amount > mean {
        reasons := reasons + [Weekend];
      }
    }
    assert reasons == ReasonClauses(amount, ratio, dow, mean);
    if reasons == [] {
      reasons := reasons + [Statistical];
    }
    reason := Join(reasons, "; ");
  }

  // ---------------------------------------------------------------- flagged rows

  /** The isolation forest's verdict on one expense row: labelled -1, and its `score_samples` value. */
  datatype Judgement = Judgement(anomalous: bool, score: real)

  /** The forest's verdict on the i-th expense row. */
  type Forest = nat -> Judgement

  datatype Candidate = Candidate(row: Transaction, feature: Feature, score: real)

  /** The flagged rows among the first n, in their original order. */
  function Flagged(rows: Rows, features: seq<Feature>, forest: Forest, n: nat): (r: seq<Candidate>)
    requires |features| == |rows| && n <= |rows|
    ensures |r| <= n
  {
    if n == 0 then []
    else
      Flagged(rows, features, forest, n - 1)
      + (if forest(n - 1).anomalous then [Candidate(rows[n - 1], features[n - 1], forest(n - 1).score)] else [])
  }

  function NegScore(c: Candidate): real { -c.score }

  /** `sort_values('anomaly_score')`: ascending score, i.e. non-increasing negated score. */
  function Ranked(rows: Rows, forest: Forest): (r: seq<Candidate>)
  {
    SortDescending(Flagged(rows, FeaturesOf(rows), forest, |rows|), NegScore)
  }

  datatype Anomaly = Anomaly(
    day: int,
    amount: real,
    category: string,
    description: string,
    anomalyScore: real,
    severity: Severity,
    reason: Text)

  /** The response entry of a flagged row, given the mean rolling mean and the amounts' spread. */
  function AnomalyOf(c: Candidate, mean: real, std: real): Anomaly
  {
    Anomaly(DayOf(c.row), RoundTo(c.row.amount, 2), c.row.category, c.row.description, RoundTo(c.score, 4),
            SeverityOf(ZScore(c.row.amount, mean, std)),
            AnomalyReason(c.row.amount, c.feature.ratio, c.feature.dayOfWeek, mean))
  }

  function AnomaliesOf(ranked: seq<Candidate>, mean: real, std: real): (r: seq<Anomaly>)
    ensures |r| == |ranked| && forall i :: 0 <= i < |ranked| ==> r[i] == AnomalyOf(ranked[i], mean, std)
  {
    seq(|ranked|, i requires 0 <= i < |ranked| => AnomalyOf(ranked[i], mean, std))
  }

  /** The loop building `anomaly_list`, one entry per ranked row. */
  method BuildAnomalyList(ranked: seq<Candidate>, mean: real, std: real) returns (list: seq<Anomaly>)
    ensures list == AnomaliesOf(ranked, mean, std)
  {
    list := [];
    for i := 0 to |ranked|
      invariant |list| == i && forall j :: 0 <= j < i ==> list[j] == AnomalyOf(ranked[j], mean, std)
    {
      var c := ranked[i];
      var z := if std > 0.0 then (c.row.amount - mean) / std else 0.0;
      var severity := if z > 3.0 then High else if z > 2.0 then Medium else Low;
      var reason := GenerateAnomalyReason(c.row.amount, c.feature.ratio, c.feature.dayOfWeek, mean);
      list := list + [Anomaly(DayOf(c.row), RoundTo(c.row.amount, 2), c.row.category, c.row.description,
                              RoundTo(c.score, 4), severity, reason)];
    }
  }

  // ---------------------------------------------------------------- detection

  datatype AnomalyStatistics = AnomalyStatistics(
    totalTransactions: nat,
    anomaliesDetected: nat,
    anomalyPercentage: real,
    totalAnomalousSpending: real,
    avgTransactionAmount: real,
    avgAnomalyAmount: real,
    periodDays: int)

  function CandidateAmount(c: Candidate): real { c.row.amount }

  /** `round(part / whole * 100, 2)`. */
  function Percentage(part: nat, whole: nat): real
    requires whole > 0
  {
    RoundTo((part as real) / (whole as real) * 100.0, 2)
  }

  lemma PercentageRange(part: nat, whole: nat)
    requires 0 < whole && part <= whole
    ensures 0.0 <= Percentage(part, whole) <= 100.0
  {
    var n, m := part as real, whole as real;
    DivBetween(0.0, n, 1.0, m);
    MulMono(0.0, n / m, 100.0);
    MulMono(n / m, 1.0, 100.0);
    RoundWithin(n / m * 100.0, 0, 100, 2);
  }

  function StatisticsOf(e: Rows, ranked: seq<Candidate>, days: int): AnomalyStatistics
    requires |e| > 0
  {
    var amounts := Values(ranked, CandidateAmount);
    AnomalyStatistics(|e|, |ranked|, Percentage(|ranked|, |e|),
                      RoundTo(Sum(amounts), 2), RoundTo(Mean(Amounts(e)), 2),
                      if |ranked| > 0 then RoundTo(Mean(amounts), 2) else 0.0, days)
  }

  /** The dictionary `detect_anomalies` returns. */
  datatype AnomalyResult =
    | Detected(anomalies: seq<Anomaly>, statistics: AnomalyStatistics)
    | DetectionFailed(error: Text, dataInfo: Verdict)
    | ScalingFailed(error: Text)

  /** Some row's `amount_vs_mean` is infinite: a non-zero amount over a zero rolling mean. */
  predicate InfiniteRatio(features: seq<Feature>)
  {
    exists i :: 0 <= i < |features| && !features[i].ratio.Finite?
  }

  /** With non-negative amounts every ratio is finite, so the scaler never rejects the features. */
  lemma NonNegativeAmountsFinite(rows: Rows)
    requires forall j :: 0 <= j < |rows| ==> rows[j].amount >= 0.0
    ensures !InfiniteRatio(FeaturesOf(rows))
  {
    var f := FeaturesOf(rows);
    forall i | 0 <= i < |rows| ensures f[i].ratio.Finite? {
      if |rows| > 7 {
        var w := Window(Amounts(rows), i);
        var p := w[..|w| - 1];
        assert w == p + [rows[i].amount];
        SumAppend(p, rows[i].amount);
        SumNonNegative(p);
      }
    }
  }

  /**
    The message of the ValueError `StandardScaler.fit_transform` raises on an
    infinite feature; its wording is scikit-learn's.
   */
  const InfinityRejected: Text := Say("Input X contains infinity or a value too large for dtype('float64').")

  /** The gate: 30 days (written as a literal), ANOMALY_MIN_TRANSACTIONS transactions, MIN_EXPENSES expenses. */
  function AnomalyGate(l: Rows): Verdict
  {
    CheckDataSufficiency(l, 30, AnomalyMinTransactions, MinExpenses)
  }

  /**
    `detect_anomalies(user, days, contamination)`: the gate, then the
    flagged expense rows in ascending score order with their severity and
    reason, and the statistics. The forest stands for the scaler and the
    isolation forest fitted with that contamination.
   */
  method DetectAnomalies(num: Numerics, l: Rows, days: int, forest: Forest) returns (r: AnomalyResult)
    ensures r.DetectionFailed? <==> !AnomalyGate(l).sufficient
    ensures r.DetectionFailed? ==>
      r == DetectionFailed([Lit("Insufficient data for anomaly detection: ")] + AnomalyGate(l).reason, AnomalyGate(l))
    ensures r.ScalingFailed? <==> AnomalyGate(l).sufficient && InfiniteRatio(FeaturesOf(Expenses(l)))
    ensures r.ScalingFailed? ==> r.error == InfinityRejected
    ensures r.Detected? ==>
      var e := Expenses(l);
      && |e| >= MinExpenses
      && r.anomalies == AnomaliesOf(Ranked(e, forest), Mean(RollingMeans(FeaturesOf(e))), Std(num, Amounts(e)))
      && r.statistics == StatisticsOf(e, Ranked(e, forest), days)
    ensures r.Detected? ==>
      && |r.anomalies| == r.statistics.anomaliesDetected <= r.statistics.totalTransactions
      && forall i, j :: 0 <= i < j < |r.anomalies| ==> r.anomalies[i].anomalyScore <= r.anomalies[j].anomalyScore
  {
    var verdict := AnomalyGate(l);
    if !verdict.sufficient {
      return DetectionFailed([Lit("Insufficient data for anomaly detection: ")] + verdict.reason, verdict);
    }
    var e := Expenses(l);
    assert |e| >= MinExpenses;
    var features := PrepareFeatures(e);
    if InfiniteRatio(features) {
      return ScalingFailed(InfinityRejected);
    }
    var flagged := Flagged(e, features, forest, |e|);
    var ranked := SortDescending(flagged, NegScore);
    assert ranked == Ranked(e, forest);
    RankedAscending(e, forest);
    var mean, std := Mean(RollingMeans(features)), Std(num, Amounts(e));
    var list := BuildAnomalyList(ranked, mean, std);
    AnomalyScoresAscending(ranked, mean, std);
    r := Detected(list, StatisticsOf(e, ranked, days));
  }

  // ---------------------------------------------------------------- per-category outliers

  /** The amounts strictly outside [lo, hi], in order. */
  function Outside(s: seq<real>, lo: real, hi: real): (r: seq<real>)
    ensures |r| <= |s|
    ensures forall i :: 0 <= i < |r| ==> r[i] < lo || r[i] > hi
  {
    if |s| == 0 then []
    else Outside(s[..|s| - 1], lo, hi) + (if s[|s| - 1] < lo || s[|s| - 1] > hi then [s[|s| - 1]] else [])
  }

  /** Every amount outside the fences is kept, as often as it occurs, and nothing else is. */
  lemma {:induction false} OutsideExact(s: seq<real>, lo: real, hi: real)
    ensures forall x :: multiset(Outside(s, lo, hi))[x] == if x < lo || x > hi then multiset(s)[x] else 0
    ensures forall x :: x in Outside(s, lo, hi) <==> x in s && (x < lo || x > hi)
  {
    if |s| > 0 {
      var p := s[..|s| - 1];
      OutsideExact(p, lo, hi);
      assert s == p + [s[|s| - 1]];
    }
  }

  datatype CategoryAnomaly = CategoryAnomaly(
    totalTransactions: nat,
    outliersDetected: nat,
    avgAmount: real,
    stdAmount: real,
    maxAmount: real,
    minAmount: real)

  /** The interquartile-range fences of a sample. */
  function Fences(num: Numerics, s: seq<real>): (real, real)
  {
    var q1, q3 := num.quantile(s, 0.25), num.quantile(s, 0.75);
    (q1 - 1.5 * (q3 - q1), q3 + 1.5 * (q3 - q1))
  }

  /** One category's entry: counts, the outliers beyond the fences, and rounded statistics. */
  function CategoryAnomalyOf(num: Numerics, rows: Rows): CategoryAnomaly
    requires |rows| >= 2
  {
    var s := Amounts(rows);
    var (lo, hi) := Fences(num, s);
    CategoryAnomaly(|rows|, |Outside(s, lo, hi)|, RoundTo(Mean(s), 2), RoundTo(Std(num, s), 2),
                    RoundTo(SeqMax(s), 2), RoundTo(SeqMin(s), 2))
  }

  /** The category loop: categories with fewer than five expenses are skipped. */
  function CategoryAnomalies(num: Numerics, e: Rows, cats: seq<string>): map<string, CategoryAnomaly>
  {
    if |cats| == 0 then map[]
    else
      var c := cats[|cats| - 1];
      var rows := WithKey(e, CategoryKey, c);
      var m := CategoryAnomalies(num, e, cats[..|cats| - 1]);
      if |rows| < 5 then m else m[c := CategoryAnomalyOf(num, rows)]
  }

  /** The dictionary `get_category_anomalies` returns. */
  datatype CategoryAnomalyResult =
    | CategoriesAnalyzed(categories: map<string, CategoryAnomaly>, periodDays: int)
    | CategoriesFailed(error: string)

  function CategoryAnomalyResultOf(num: Numerics, l: Rows, days: int): CategoryAnomalyResult
  {
    if |l| == 0 then CategoriesFailed("No transaction data")
    else CategoriesAnalyzed(CategoryAnomalies(num, Expenses(l), Categories(Expenses(l))), days)
  }

  /** `get_category_anomalies(user, days)`, filling the dictionary one category at a time. */
  method GetCategoryAnomalies(num: Numerics, l: Rows, days: int) returns (r: CategoryAnomalyResult)
    ensures r == CategoryAnomalyResultOf(num, l, days)
  {
    if |l| == 0 {
      return CategoriesFailed("No transaction data");
    }
    var e := Expenses(l);
    var cats := Categories(e);
    var result: map<string, CategoryAnomaly> := map[];
    for i := 0 to |cats|
      invariant result == CategoryAnomalies(num, e, cats[..i])
    {
      assert cats[..i + 1][..i] == cats[..i];
      var rows := WithKey(e, CategoryKey, cats[i]);
      if |rows| >= 5 {
        result := result[cats[i] := CategoryAnomalyOf(num, rows)];
      }
    }
    assert cats[..|cats|] == cats;
    r := CategoriesAnalyzed(result, days);
  }

  // ---------------------------------------------------------------- lemmas

  /** A window holds the amounts of the rows i - 6 .. i that exist, so its mean lies between their bounds. */
  lemma RollingMeanBounds(s: seq<real>, i: nat, lo: real, hi: real)
    requires i < |s| && forall j :: 0 <= j < |s| ==> lo <= s[j] <= hi
    ensures lo <= Mean(Window(s, i)) <= hi
  {
    var w := Window(s, i);
    var start := if i >= 6 then i - 6 else 0;
    forall j | 0 <= j < |w| ensures lo <= w[j] <= hi {
      assert w[j] == s[start + j];
    }
    SumBounds(w, lo, hi);
    DivBetween(lo, Sum(w), hi, |w| as real);
  }

  /** Constant amounts c != 0 make every rolling mean c and every ratio 1. */
  lemma ConstantAmountsRatioOne(rows: Rows, c: real, i: nat)
    requires |rows| > 7 && i < |rows| && c != 0.0
    requires forall j :: 0 <= j < |rows| ==> rows[j].amount == c
    ensures FeatureOf(rows, i).rollingMean == c && FeatureOf(rows, i).ratio == Finite(1.0)
    ensures !AboveThree(FeatureOf(rows, i).ratio)
  {
    var s := Amounts(rows);
    var w := Window(s, i);
    var start := if i >= 6 then i - 6 else 0;
    forall j | 0 <= j < |w| ensures w[j] == c {
      assert w[j] == s[start + j];
    }
    MeanConstant(w, c);
    assert rows[i].amount == c;
    assert c / c == 1.0;
  }

  /** With at most seven rows the ratio is 1, so the deviation clause never applies. */
  lemma SmallSampleNoDeviation(rows: Rows, i: nat)
    requires i < |rows| <= 7
    ensures FeatureOf(rows, i).ratio == Finite(1.0) && !AboveThree(FeatureOf(rows, i).ratio)
    ensures FeatureOf(rows, i).rollingMean == Mean(Amounts(rows))
  {
  }

  /** Severity rises with the z-score. */
  lemma SeverityMonotone(z: real, w: real)
    requires z <= w
    ensures SeverityRank(SeverityOf(z)) <= SeverityRank(SeverityOf(w))
  {
  }

  /** An amount at or below the mean, or a sample without spread, is never more than low severity. */
  lemma AtMostMeanIsLow(amount: real, mean: real, std: real)
    requires amount <= mean || std <= 0.0
    ensures SeverityOf(ZScore(amount, mean, std)) == Low
  {
    if std > 0.0 {
      DivMono(amount - mean, 0.0, std);
    }
  }

  /** High severity means the amount exceeds the mean by more than three spreads. */
  lemma HighSeverityMeaning(amount: real, mean: real, std: real)
    requires std > 0.0
    ensures SeverityOf(ZScore(amount, mean, std)) == High <==> amount > mean + 3.0 * std
    ensures SeverityOf(ZScore(amount, mean, std)) != Low <==> amount > mean + 2.0 * std
  {
    QuotientAbove(amount - mean, 3.0, std);
    QuotientAbove(amount - mean, 2.0, std);
  }

  lemma QuotientAbove(x: real, k: real, s: real)
    requires s > 0.0
    ensures x / s > k <==> x > k * s
  {
    MulDivCancel(k, s);
    if x > k * s {
      DivStrict(k * s, x, s);
    } else {
      DivMono(x, k * s, s);
    }
  }

  lemma ClausesDiffer(amount: real, mean: real)
    ensures Deviation != Weekend && Deviation != Statistical && Weekend != Statistical
    ensures TimesAverage(amount, mean) != Deviation && TimesAverage(amount, mean) != Weekend
  {
  }

  lemma ClauseMembership(amount: real, ratio: Ratio, dow: int, mean: real)
    ensures var cs := ReasonClauses(amount, ratio, dow, mean);
      && (TimesAverage(amount, mean) in cs <==> amount > mean * 3.0 || amount > mean * 2.0)
      && (Deviation in cs <==> AboveThree(ratio))
      && (Weekend in cs <==> WeekendAsWritten(dow) && amount > mean)
      && |cs| <= 3
  {
    ClausesDiffer(amount, mean);
    var x := if amount > mean * 3.0 || amount > mean * 2.0 then [TimesAverage(amount, mean)] else [];
    var y := if AboveThree(ratio) then [Deviation] else [];
    var z := if WeekendAsWritten(dow) && amount > mean then [Weekend] else [];
    assert ReasonClauses(amount, ratio, dow, mean) == x + y + z;
    assert forall c :: c in x + y + z <==> c in x || c in y || c in z;
  }

  lemma DefaultReason(amount: real, ratio: Ratio, dow: int, mean: real)
    ensures AnomalyReason(amount, ratio, dow, mean) == Statistical <==> ReasonClauses(amount, ratio, dow, mean) == []
  {
    var cs := ReasonClauses(amount, ratio, dow, mean);
    if cs != [] {
      JoinFirst(cs, "; ");
      assert cs[0][0] != Lit("Statistical anomaly detected in spending pattern");
    }
  }

  /**
    The reason names exactly the rules that fire: the "higher than average"
    clause iff the amount exceeds twice or three times the mean, the
    deviation clause iff the ratio exceeds 3, the weekend clause iff the
    weekday is 6 or 0 and the amount exceeds the mean, and the default
    alone iff none fires.
   */
  lemma ReasonRules(amount: real, ratio: Ratio, dow: int, mean: real)
    ensures var cs := ReasonClauses(amount, ratio, dow, mean);
      && (TimesAverage(amount, mean) in cs <==> amount > mean * 3.0 || amount > mean * 2.0)
      && (Deviation in cs <==> AboveThree(ratio))
      && (Weekend in cs <==> WeekendAsWritten(dow) && amount > mean)
      && |cs| <= 3
      && (AnomalyReason(amount, ratio, dow, mean) == Statistical <==> cs == [])
  {
    ClauseMembership(amount, ratio, dow, mean);
    DefaultReason(amount, ratio, dow, mean);
  }

  /** The weekend rule as written flags Mondays (weekday 0) and never Saturdays (weekday 5). */
  lemma MondayIsWeekend(amount: real, ratio: Ratio, mean: real)
    requires amount > mean
    ensures Weekend in ReasonClauses(amount, ratio, 0, mean)
    ensures Weekend !in ReasonClauses(amount, ratio, 5, mean)
  {
    ReasonRules(amount, ratio, 0, mean);
    ReasonRules(amount, ratio, 5, mean);
  }

  /** A flagged candidate is the row, features and score of a row the forest labelled anomalous. */
  lemma {:induction false} FlaggedMembers(rows: Rows, features: seq<Feature>, forest: Forest, n: nat)
    requires |features| == |rows| && n <= |rows|
    ensures forall c :: c in Flagged(rows, features, forest, n) <==>
      exists i :: 0 <= i < n && forest(i).anomalous && c == Candidate(rows[i], features[i], forest(i).score)
  {
    if n > 0 {
      FlaggedMembers(rows, features, forest, n - 1);
    }
  }

  /** Ranking keeps exactly the flagged rows and orders them by ascending score. */
  lemma RankedAscending(rows: Rows, forest: Forest)
    ensures multiset(Ranked(rows, forest)) == multiset(Flagged(rows, FeaturesOf(rows), forest, |rows|))
    ensures forall i, j :: 0 <= i < j < |Ranked(rows, forest)| ==> Ranked(rows, forest)[i].score <= Ranked(rows, forest)[j].score
    ensures |Ranked(rows, forest)| <= |rows|
  {
    var flagged := Flagged(rows, FeaturesOf(rows), forest, |rows|);
    SortDescendingFacts(flagged, NegScore);
  }

  /** Response scores are rounded but stay in ascending order. */
  lemma AnomalyScoresAscending(ranked: seq<Candidate>, mean: real, std: real)
    requires forall i, j :: 0 <= i < j < |ranked| ==> ranked[i].score <= ranked[j].score
    ensures var list := AnomaliesOf(ranked, mean, std);
      forall i, j :: 0 <= i < j < |list| ==> list[i].anomalyScore <= list[j].anomalyScore
  {
    forall i, j | 0 <= i < j < |ranked|
      ensures RoundTo(ranked[i].score, 4) <= RoundTo(ranked[j].score, 4)
    {
      RoundMonotone(ranked[i].score, ranked[j].score, 4);
    }
  }

  /**
    The statistics count the flagged rows among the expenses, so the
    percentage lies in [0, 100]; the sums do not depend on the order, and
    nothing flagged gives an average anomaly of 0.
   */
  lemma StatisticsFacts(e: Rows, forest: Forest, days: int)
    requires |e| > 0
    ensures var st := StatisticsOf(e, Ranked(e, forest), days);
      && st.anomaliesDetected <= st.totalTransactions == |e|
      && 0.0 <= st.anomalyPercentage <= 100.0
      && st.totalAnomalousSpending == RoundTo(Sum(Values(Flagged(e, FeaturesOf(e), forest, |e|), CandidateAmount)), 2)
      && (st.anomaliesDetected == 0 ==> st.avgAnomalyAmount == 0.0 && st.totalAnomalousSpending == 0.0)
  {
    var ranked := Ranked(e, forest);
    RankedAscending(e, forest);
    SumValuesPermutation(ranked, Flagged(e, FeaturesOf(e), forest, |e|), CandidateAmount);
    PercentageRange(|ranked|, |e|);
    RoundZero(2);
  }

  /** Fences around a lawful [Q1, Q3]: no amount between the quartiles is an outlier. */
  lemma QuartilesInsideFences(num: Numerics, s: seq<real>, x: real)
    requires Lawful(num) && |s| > 0
    requires num.quantile(s, 0.25) <= x <= num.quantile(s, 0.75)
    ensures Fences(num, s).0 <= x <= Fences(num, s).1
  {
    assert num.quantile(s, 0.25) <= num.quantile(s, 0.75);
  }

  lemma {:induction false} OutsideNone(s: seq<real>, lo: real, hi: real)
    requires forall i :: 0 <= i < |s| ==> lo <= s[i] <= hi
    ensures Outside(s, lo, hi) == []
  {
    if |s| > 0 {
      OutsideNone(s[..|s| - 1], lo, hi);
    }
  }

  /** A category whose amounts are all equal has no outliers and zero spread. */
  lemma ConstantCategoryNoOutliers(num: Numerics, rows: Rows, c: real)
    requires Lawful(num) && |rows| >= 2
    requires forall i :: 0 <= i < |rows| ==> rows[i].amount == c
    ensures CategoryAnomalyOf(num, rows).outliersDetected == 0
    ensures CategoryAnomalyOf(num, rows).stdAmount == 0.0
  {
    var s := Amounts(rows);
    assert Constant(s, c);
    QuantileConstant(num, s, c, 0.25);
    QuantileConstant(num, s, c, 0.75);
    OutsideNone(s, c, c);
    StdFacts(num, s);
    RoundZero(2);
  }

  /**
    The category dictionary has an entry exactly for the listed categories
    with at least five expenses; each entry counts no more outliers than
    transactions.
   */
  lemma {:induction false} CategoryAnomaliesFacts(num: Numerics, e: Rows, cats: seq<string>)
    ensures var m := CategoryAnomalies(num, e, cats);
      forall c :: c in m <==> c in cats && |WithKey(e, CategoryKey, c)| >= 5
    ensures var m := CategoryAnomalies(num, e, cats);
      forall c :: c in m ==> (m[c] == CategoryAnomalyOf(num, WithKey(e, CategoryKey, c))
                              && m[c].outliersDetected <= m[c].totalTransactions)
  {
    if |cats| > 0 {
      var c, cats' := cats[|cats| - 1], cats[..|cats| - 1];
      CategoryAnomaliesFacts(num, e, cats');
      assert forall x :: x in cats <==> x in cats' || x == c;
    }
  }
}
