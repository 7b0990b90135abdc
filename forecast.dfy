/**
  The deterministic wiring of the spending forecast: the zero-filled daily
  expense series the time-series model is trained on, the span gate, the
  average-with-trend forecast used when the model raises, the clamped
  response rows with their summary statistics, and the per-category
  forecasts with their shortcut for categories active on fewer than seven
  days. Fitting Prophet and predicting with it is an input (`Fit`).
 */
module Forecast {
  import opened Numeric
  import opened Texts
  import opened Options
  import opened Ledger
  import opened Config

  // ---------------------------------------------------------------- the daily series

  /** The frame `prepare_data` returns: `y[i]` is the spending on day `first + i`. */
  datatype Series = Series(first: int, y: seq<real>)

  /** The days lo, lo + 1, ..., lo + n - 1 (`pd.date_range(..., freq='D')`). */
  function DayRange(lo: int, n: nat): (r: seq<int>)
    ensures |r| == n && forall i :: 0 <= i < n ==> r[i] == lo + i
  {
    seq(n, i requires 0 <= i < n => lo + i)
  }

  /**
    `prepare_data`: the expense rows summed per calendar day, over every day
    from the first to the last expense day; no rows at all, or no expense
    rows, give the empty frame.
   */
  function PrepareData(l: Rows): (r: Option<Series>)
    ensures r.None? <==> |Expenses(l)| == 0
    ensures r.Some? ==> (r.value.first == MinKey(Expenses(l), DayKey)
                         && r.value.first + |r.value.y| - 1 == MaxKey(Expenses(l), DayKey))
    ensures r.Some? ==> r.value.y == DailySeries(Expenses(l), r.value.first, |r.value.y|)
  {
    var e := Expenses(l);
    if |e| == 0 then None
    else
      var lo, hi := MinKey(e, DayKey), MaxKey(e, DayKey);
      Some(Series(lo, DailySeries(e, lo, hi - lo + 1)))
  }

  /** The expense total of each of n consecutive days from lo, missing days as 0. */
  function DailySeries(e: Rows, lo: int, n: nat): (r: seq<real>)
    ensures |r| == n && forall i :: 0 <= i < n ==> r[i] == Total(WithKey(e, DayKey, lo + i))
  {
    GroupSums(e, DayKey, DayRange(lo, n))
  }

  // ---------------------------------------------------------------- prediction frames

  /** One row of a prediction frame: a day, the predicted spending and its interval. */
  datatype Band = Band(day: int, yhat: real, lower: real, upper: real)

  /** What fitting Prophet and predicting delivered: its whole prediction frame, or the exception it raised. */
  datatype Fit = Fitted(frame: seq<Band>) | FitFailed(message: string)

  /**
    `frame.tail(k)`: the last k rows, or all of them when there are fewer; a
    negative k drops the first -k rows instead.
   */
  function Tail<T>(s: seq<T>, k: int): (r: seq<T>)
    ensures |r| == if 0 <= k <= |s| then k else if k > |s| then |s| else if -k <= |s| then |s| + k else 0
    ensures forall i :: 0 <= i < |r| ==> r[i] == s[|s| - |r| + i]
  {
    if k >= 0 then (if k <= |s| then s[|s| - k..] else s)
    else if -k <= |s| then s[-k..] else []
  }

  function RelativeChange(x: real, base: real): real
    requires base != 0.0
  {
    (x - base) / base
  }

  /**
    The fallback's trend: the relative change of the last week's mean against
    the whole mean, when there are more than seven days and the mean is
    positive, and 0 otherwise.
   */
  function FallbackTrend(y: seq<real>): real
  {
    if |y| > 7 && Mean(y) > 0.0 then RelativeChange(Mean(y[|y| - 7..]), Mean(y)) else 0.0
  }

  /** The fallback prediction i days after the history: the mean with the trend applied over a month. */
  function Ramp(avg: real, trend: real, i: nat): real
  {
    avg * (1.0 + trend * ((i as real) / 30.0))
  }

  /** A fallback row for prediction p: clamped prediction and lower bound, upper bound p + std. */
  function FallbackBand(day: int, p: real, std: real): Band
  {
    Band(day, Max2(0.0, p), Max2(0.0, p - std), p + std)
  }

  /** The fallback frame: k rows, from the day after the last observed day. */
  function FallbackFrame(s: Series, std: real, k: nat): (r: seq<Band>)
    requires |s.y| > 0
    ensures |r| == k
  {
    seq(k, i requires 0 <= i < k => FallbackBand(s.first + |s.y| + i, Ramp(Mean(s.y), FallbackTrend(s.y), i), std))
  }

  /** The fallback loop, appending one row per forecast day. */
  method SimpleForecast(s: Series, std: real, k: nat) returns (frame: seq<Band>)
    requires |s.y| > 0
    ensures frame == FallbackFrame(s, std, k)
  {
    var avg := Mean(s.y);
    var trend := FallbackTrend(s.y);
    var start := s.first + |s.y|;
    frame := [];
    for i := 0 to k
      invariant |frame| == i
      invariant forall j :: 0 <= j < i ==> frame[j] == FallbackBand(start + j, Ramp(avg, trend, j), std)
    {
      var predicted := avg * (1.0 + trend * ((i as real) / 30.0));
      frame := frame + [Band(start + i, Max2(0.0, predicted), Max2(0.0, predicted - std), predicted + std)];
    }
  }

  // ---------------------------------------------------------------- the response

  /** One response row; the date is kept as its day number. */
  datatype Point = Point(day: int, predictedSpending: real, lowerBound: real, upperBound: real)

  /** `max(0, round(x, 2))`. */
  function Clamp2(x: real): real
  {
    Max2(0.0, RoundTo(x, 2))
  }

  function PointOf(b: Band): Point
  {
    Point(b.day, Clamp2(b.yhat), Clamp2(b.lower), Clamp2(b.upper))
  }

  function Points(frame: seq<Band>): (r: seq<Point>)
    ensures |r| == |frame| && forall i :: 0 <= i < |frame| ==> r[i] == PointOf(frame[i])
  {
    seq(|frame|, i requires 0 <= i < |frame| => PointOf(frame[i]))
  }

  /**
    The response loop: one row per frame row, on the same day, every value
    rounded to cents and clamped to be non-negative.
   */
  method BuildResponse(frame: seq<Band>) returns (points: seq<Point>)
    ensures points == Points(frame)
    ensures forall i :: 0 <= i < |points| ==>
              (points[i].day == frame[i].day && points[i].predictedSpending >= 0.0
               && points[i].lowerBound >= 0.0 && points[i].upperBound >= 0.0)
  {
    points := [];
    for i := 0 to |frame|
      invariant |points| == i
      invariant forall j :: 0 <= j < i ==> points[j] == PointOf(frame[j])
    {
      var row := frame[i];
      points := points + [Point(row.day, Max2(0.0, RoundTo(row.yhat, 2)), Max2(0.0, RoundTo(row.lower, 2)), Max2(0.0, RoundTo(row.upper, 2)))];
    }
  }

  datatype Statistics = Statistics(
    historicalAvgDaily: real,
    forecastAvgDaily: real,
    trendPercentage: Float,
    totalPredictedSpending: real,
    forecastPeriodDays: int,
    dataPointsUsed: nat)

  function Yhats(frame: seq<Band>): (r: seq<real>)
    ensures |r| == |frame| && forall i :: 0 <= i < |frame| ==> r[i] == frame[i].yhat
  {
    seq(|frame|, i requires 0 <= i < |frame| => frame[i].yhat)
  }

  /** The mean of the forecast column; NaN when the forecast is empty. */
  function ForecastAvg(frame: seq<Band>): Float
  {
    if |frame| == 0 then NaN else Real(Mean(Yhats(frame)))
  }

  /** `round(x, 2)` of a float that may be NaN. */
  function RoundFloat(x: Float): Float
  {
    match x
    case NaN => NaN
    case Real(v) => Real(RoundTo(v, 2))
  }

  /** The change of the forecast average against the history, in percent; 0 without a positive history. */
  function TrendPercent(h: real, f: Float): Float
  {
    if h > 0.0 then
      match f
      case NaN => NaN
      case Real(v) => Real(RelativeChange(v, h) * 100.0)
    else Real(0.0)
  }

  /** The statistics block over the history y and the future frame. */
  function StatisticsOf(y: seq<real>, frame: seq<Band>, k: int): (r: Statistics)
    requires |y| > 0
    ensures r.forecastAvgDaily >= 0.0 && r.totalPredictedSpending >= 0.0
    ensures r.dataPointsUsed == |y| && r.forecastPeriodDays == k
    ensures r.historicalAvgDaily == RoundTo(Mean(y), 2)
  {
    var h := Mean(y);
    var f := ForecastAvg(frame);
    Statistics(RoundTo(h, 2), ClampFloat(RoundFloat(f)), RoundFloat(TrendPercent(h, f)),
               Clamp2(Sum(Yhats(frame))), k, |y|)
  }

  datatype DataInfo = DataInfo(daysOfData: int, totalDataPoints: nat)

  /** The dictionary `train_and_predict` returns. */
  datatype ForecastResult =
    | Forecasted(forecast: seq<Point>, statistics: Statistics)
    | ForecastFailed(error: Text, dataInfo: Option<DataInfo>)

  const NoForecastData: Text := Say("No transaction data found")

  /**
    The message of the KeyError raised when the fallback built no rows: a
    `DataFrame` of an empty list has no `yhat` column to read.
   */
  const MissingYhat: Text := Say("'yhat'")

  function SpanText(days: int): Text
  {
    [Lit("Insufficient data for forecasting (data spans "), Int(days), Lit(" days, need "),
     Int(ForecastMinDays), Lit("+ days)")]
  }

  /** The future part of the prediction: the fitted frame's last k rows, or the fallback when fitting raised. */
  function FutureFrame(num: Numerics, s: Series, k: int, fit: Fit): seq<Band>
    requires |s.y| >= 2
  {
    match fit
    case Fitted(frame) => Tail(frame, k)
    case FitFailed(_) => FallbackFrame(s, Std(num, s.y), if k > 0 then k else 0)
  }

  /**
    `train_and_predict(user, forecast_days)`. The span of the prepared frame,
    `(max - min).days + 1`, is its length, since it has a row for every day.
   */
  method TrainAndPredict(num: Numerics, l: Rows, k: int, fit: Fit) returns (r: ForecastResult)
    ensures |Expenses(l)| == 0 <==> r == ForecastFailed(NoForecastData, None)
    ensures |Expenses(l)| > 0 ==>
      var s := PrepareData(l).value;
      && (|s.y| < ForecastMinDays ==> r == ForecastFailed(SpanText(|s.y|), Some(DataInfo(|s.y|, |s.y|))))
      && (|s.y| >= ForecastMinDays && k <= 0 && fit.FitFailed? ==> r == ForecastFailed(MissingYhat, None))
      && (|s.y| >= ForecastMinDays && (k > 0 || fit.Fitted?) ==>
            r == Forecasted(Points(FutureFrame(num, s, k, fit)), StatisticsOf(s.y, FutureFrame(num, s, k, fit), k)))
    ensures r.Forecasted? && fit.FitFailed? ==> |r.forecast| == k
    ensures r.Forecasted? ==> forall i :: 0 <= i < |r.forecast| ==>
      r.forecast[i].predictedSpending >= 0.0 && r.forecast[i].lowerBound >= 0.0 && r.forecast[i].upperBound >= 0.0
  {
    var prepared := PrepareData(l);
    if prepared.None? {
      return ForecastFailed(NoForecastData, None);
    }
    var s := prepared.value;
    var span := |s.y|;
    if span < ForecastMinDays {
      return ForecastFailed(SpanText(span), Some(DataInfo(span, |s.y|)));
    }
    if k <= 0 && fit.FitFailed? {
      return ForecastFailed(MissingYhat, None);
    }
    var future: seq<Band>;
    match fit {
      case Fitted(frame) =>
        future := Tail(frame, k);
      case FitFailed(_) =>
        future := SimpleForecast(s, Std(num, s.y), k);
    }
    var points := BuildResponse(future);
    r := Forecasted(points, StatisticsOf(s.y, future, k));
  }

  // ---------------------------------------------------------------- per-category forecasts

  datatype CategoryForecast = CategoryForecast(avgSpending: real, totalHistorical: real, predictedTotal: real)

  /** The days on which a category has expenses (`groupby(date)`, without filling). */
  function ActiveDays(rows: Rows): seq<int>
  {
    Distinct(Keys(rows, DayKey))
  }

  datatype Entry = Entry(forecast: CategoryForecast) | EntryFailed(message: string)

  /** The shortcut for a category active on fewer than seven days: its mean amount times the forecast days. */
  function Shortcut(rows: Rows, k: int): CategoryForecast
    requires |rows| > 0
  {
    var amounts := Amounts(rows);
    CategoryForecast(RoundTo(Mean(amounts), 2), RoundTo(Sum(amounts), 2), ScaledCents(Mean(amounts), k as real))
  }

  /** One category's entry: the shortcut, or its fit's last k rows, which fail when fitting raised. */
  function CategoryEntry(rows: Rows, k: int, fit: Fit): (r: Entry)
    requires |rows| > 0
    ensures r.EntryFailed? <==> |ActiveDays(rows)| >= 7 && fit.FitFailed?
    ensures |ActiveDays(rows)| < 7 ==> r == Entry(Shortcut(rows, k))
    ensures r.Entry? ==> r.forecast.totalHistorical == RoundTo(Total(rows), 2)
    ensures r.Entry? && |ActiveDays(rows)| >= 7 ==> r.forecast.predictedTotal >= 0.0
  {
    if |ActiveDays(rows)| < 7 then Entry(Shortcut(rows, k))
    else
      match fit
      case FitFailed(m) => EntryFailed(m)
      case Fitted(frame) =>
        var total := Max2(0.0, Sum(Yhats(Tail(frame, k))));
        RoundNonNegative(total, 2);
        Entry(CategoryForecast(RoundTo(Mean(GroupSums(rows, DayKey, ActiveDays(rows))), 2),
                               RoundTo(Sum(Amounts(rows)), 2), RoundTo(total, 2)))
  }

  /** The dictionary `get_category_forecast` returns. */
  datatype CategoryResult =
    | CategoryForecasts(forecasts: map<string, CategoryForecast>, forecastPeriodDays: int)
    | CategoryFailed(error: string)

  lemma CategoryRowsNonEmpty(e: Rows, c: string)
    requires c in Categories(e)
    ensures |WithKey(e, CategoryKey, c)| > 0
  {
    var i :| 0 <= i < |e| && Keys(e, CategoryKey)[i] == c;
    WithKeyMembers(e, CategoryKey, c);
    assert e[i] in WithKey(e, CategoryKey, c);
  }

  /** The entry of category c of the expenses e. */
  function EntryOf(e: Rows, c: string, k: int, fit: Fit): Entry
    requires c in Categories(e)
  {
    CategoryRowsNonEmpty(e, c);
    CategoryEntry(WithKey(e, CategoryKey, c), k, fit)
  }

  predicate AllCategories(e: Rows, cats: seq<string>)
  {
    forall i :: 0 <= i < |cats| ==> cats[i] in Categories(e)
  }

  /** The category loop over cats in order: the first category whose fit raised ends it. */
  function Collect(e: Rows, cats: seq<string>, k: int, fits: string -> Fit): CategoryResult
    requires AllCategories(e, cats)
  {
    if |cats| == 0 then CategoryForecasts(map[], k)
    else
      var c := cats[|cats| - 1];
      match Collect(e, cats[..|cats| - 1], k, fits)
      case CategoryFailed(m) => CategoryFailed(m)
      case CategoryForecasts(m, _) =>
        match EntryOf(e, c, k, fits(c))
        case EntryFailed(msg) => CategoryFailed(msg)
        case Entry(f) => CategoryForecasts(m[c := f], k)
  }

  /** `get_category_forecast(user, forecast_days)`, with each category's fit supplied by `fits`. */
  function CategoryForecastOf(l: Rows, k: int, fits: string -> Fit): CategoryResult
  {
    if |l| == 0 then CategoryFailed("No transaction data")
    else Collect(Expenses(l), Categories(Expenses(l)), k, fits)
  }

  lemma {:induction false} CollectStopsAtFailure(e: Rows, cats: seq<string>, n: nat, k: int, fits: string -> Fit)
    requires AllCategories(e, cats)
    requires n <= |cats| && Collect(e, cats[..n], k, fits).CategoryFailed?
    ensures Collect(e, cats, k, fits) == Collect(e, cats[..n], k, fits)
    decreases |cats| - n
  {
    if n == |cats| {
      assert cats[..n] == cats;
    } else {
      assert cats[..n + 1][..n] == cats[..n];
      CollectStopsAtFailure(e, cats, n + 1, k, fits);
    }
  }

  lemma CollectStep(e: Rows, cats: seq<string>, i: nat, k: int, fits: string -> Fit)
    requires AllCategories(e, cats) && i < |cats|
    ensures var entry := EntryOf(e, cats[i], k, fits(cats[i]));
      Collect(e, cats[..i + 1], k, fits) ==
        match Collect(e, cats[..i], k, fits)
        case CategoryFailed(m) => CategoryFailed(m)
        case CategoryForecasts(m, _) =>
          if entry.EntryFailed? then CategoryFailed(entry.message) else CategoryForecasts(m[cats[i] := entry.forecast], k)
  {
    assert cats[..i + 1][..i] == cats[..i];
  }

  /** The loop filling the dictionary, one category at a time. */
  method GetCategoryForecast(l: Rows, k: int, fits: string -> Fit) returns (r: CategoryResult)
    ensures r == CategoryForecastOf(l, k, fits)
  {
    if |l| == 0 {
      return CategoryFailed("No transaction data");
    }
    var e := Expenses(l);
    var cats := Categories(e);
    var forecasts: map<string, CategoryForecast> := map[];
    for i := 0 to |cats|
      invariant Collect(e, cats[..i], k, fits) == CategoryForecasts(forecasts, k)
    {
      var entry := EntryOf(e, cats[i], k, fits(cats[i]));
      CollectStep(e, cats, i, k, fits);
      if entry.EntryFailed? {
        CollectStopsAtFailure(e, cats, i + 1, k, fits);
        return CategoryFailed(entry.message);
      }
      forecasts := forecasts[cats[i] := entry.forecast];
    }
    assert cats[..|cats|] == cats;
    r := CategoryForecasts(forecasts, k);
  }

  // ---------------------------------------------------------------- lemmas

  /** Nothing is lost or counted twice: the daily series adds up to the total expenses. */
  /** Day numbers between lo and hi all appear in the range from lo to hi, which has no repeats. */
  lemma DayRangeCovers(e: Rows, lo: int, hi: int)
    requires lo <= hi && forall i :: 0 <= i < |e| ==> lo <= DayKey(e[i]) <= hi
    ensures var days := DayRange(lo, hi - lo + 1);
      && (forall i, j :: 0 <= i < j < |days| ==> days[i] != days[j])
      && (forall i :: 0 <= i < |e| ==> DayKey(e[i]) in days)
  {
    var days := DayRange(lo, hi - lo + 1);
    forall i | 0 <= i < |e| ensures DayKey(e[i]) in days {
      assert days[DayKey(e[i]) - lo] == DayKey(e[i]);
    }
  }

  lemma SeriesTotal(l: Rows)
    requires |Expenses(l)| > 0
    ensures Sum(PrepareData(l).value.y) == Total(Expenses(l))
  {
    var e := Expenses(l);
    var lo, hi := MinKey(e, DayKey), MaxKey(e, DayKey);
    DayRangeCovers(e, lo, hi);
    GroupSumsPartition(e, DayKey, DayRange(lo, hi - lo + 1));
  }

  /** Every expense falls on a day of the series, and a day of the series without expenses is 0. */
  lemma SeriesZeroFill(l: Rows, d: int)
    requires |Expenses(l)| > 0
    requires forall i :: 0 <= i < |Expenses(l)| ==> DayOf(Expenses(l)[i]) != d
    ensures var s := PrepareData(l).value;
      (forall i :: 0 <= i < |Expenses(l)| ==> s.first <= DayOf(Expenses(l)[i]) < s.first + |s.y|)
      && (s.first <= d < s.first + |s.y| ==> s.y[d - s.first] == 0.0)
  {
    var e := Expenses(l);
    var s := PrepareData(l).value;
    forall i | 0 <= i < |e| ensures s.first <= DayOf(e[i]) < s.first + |s.y| {
      assert DayKey(e[i]) == DayOf(e[i]);
    }
    WithKeyAbsent(e, DayKey, d);
  }

  /** The fallback trend is non-negative exactly when the last week's mean is at least the whole mean. */
  lemma FallbackTrendSign(y: seq<real>)
    requires |y| > 7 && Mean(y) > 0.0
    ensures FallbackTrend(y) >= 0.0 <==> Mean(y[|y| - 7..]) >= Mean(y)
  {
    var m, w := Mean(y), Mean(y[|y| - 7..]);
    if w >= m {
      DivMono(0.0, w - m, m);
    } else {
      DivStrict(w - m, 0.0, m);
    }
  }

  /** A rising trend makes the ramp non-decreasing over the forecast days, a falling one non-increasing. */
  lemma RampDirection(avg: real, trend: real, i: nat, j: nat)
    requires avg >= 0.0 && i <= j
    ensures trend >= 0.0 ==> Ramp(avg, trend, i) <= Ramp(avg, trend, j)
    ensures trend <= 0.0 ==> Ramp(avg, trend, j) <= Ramp(avg, trend, i)
  {
    var a, b := (i as real) / 30.0, (j as real) / 30.0;
    assert a <= b;
    if trend >= 0.0 {
      MulMono(a, b, trend);
      MulMono(1.0 + trend * a, 1.0 + trend * b, avg);
      assert avg * (1.0 + trend * a) == (1.0 + trend * a) * avg;
      assert avg * (1.0 + trend * b) == (1.0 + trend * b) * avg;
    }
    if trend <= 0.0 {
      MulMono(a, b, -trend);
      MulMono(1.0 + trend * b, 1.0 + trend * a, avg);
      assert avg * (1.0 + trend * a) == (1.0 + trend * a) * avg;
      assert avg * (1.0 + trend * b) == (1.0 + trend * b) * avg;
    }
  }

  lemma Clamp2Monotone(x: real, y: real)
    requires x <= y
    ensures 0.0 <= Clamp2(x) <= Clamp2(y)
  {
    RoundMonotone(x, y, 2);
  }

  /**
    The fallback frame has k consecutive days after the history and, with a
    non-negative spread, a lower bound that never exceeds the prediction;
    after rounding and clamping, every response row satisfies
    0 <= lower <= predicted <= upper.
   */
  lemma FallbackPointsOrdered(s: Series, std: real, k: nat)
    requires |s.y| > 0 && std >= 0.0
    ensures var frame := FallbackFrame(s, std, k);
      forall i :: 0 <= i < k ==> frame[i].day == s.first + |s.y| + i && 0.0 <= frame[i].lower <= frame[i].yhat
    ensures var pts := Points(FallbackFrame(s, std, k));
      forall i :: 0 <= i < k ==> 0.0 <= pts[i].lowerBound <= pts[i].predictedSpending <= pts[i].upperBound
  {
    var frame := FallbackFrame(s, std, k);
    var pts := Points(frame);
    forall i | 0 <= i < k
      ensures 0.0 <= pts[i].lowerBound <= pts[i].predictedSpending <= pts[i].upperBound
    {
      var p := Ramp(Mean(s.y), FallbackTrend(s.y), i);
      Clamp2Monotone(Max2(0.0, p - std), Max2(0.0, p));
      if p >= 0.0 {
        Clamp2Monotone(p, p + std);
      } else {
        RoundZero(2);
        assert Clamp2(0.0) == 0.0;
      }
    }
  }

  /** The fitted frame holding at least k rows yields exactly k response rows. */
  lemma FittedLength(num: Numerics, s: Series, k: nat, frame: seq<Band>)
    requires |s.y| >= 2 && |frame| >= k
    ensures |Points(FutureFrame(num, s, k, Fitted(frame)))| == k
  {
  }

  /** A flat history forecasts itself: zero trend, a zero-width band at the daily amount, and a 0% trend. */
  lemma FlatHistory(num: Numerics, s: Series, c: real, k: nat)
    requires Lawful(num) && |s.y| >= 2 && c >= 0.0 && k > 0
    requires forall i :: 0 <= i < |s.y| ==> s.y[i] == c
    ensures FallbackFrame(s, Std(num, s.y), k) == seq(k, i requires 0 <= i < k => Band(s.first + |s.y| + i, c, c, c))
    ensures c > 0.0 ==> StatisticsOf(s.y, FallbackFrame(s, Std(num, s.y), k), k).trendPercentage == Real(0.0)
  {
    assert Constant(s.y, c);
    MeanConstant(s.y, c);
    if |s.y| > 7 {
      assert Constant(s.y[|s.y| - 7..], c);
      MeanConstant(s.y[|s.y| - 7..], c);
    }
    assert FallbackTrend(s.y) == 0.0;
    StdFacts(num, s.y);
    assert Std(num, s.y) == 0.0;
    var frame := FallbackFrame(s, Std(num, s.y), k);
    forall i | 0 <= i < k ensures frame[i] == Band(s.first + |s.y| + i, c, c, c) {
      assert Ramp(c, 0.0, i) == c;
    }
    assert Constant(Yhats(frame), c);
    MeanConstant(Yhats(frame), c);
    RoundZero(2);
  }

  /**
    The trend percentage follows the forecast: a forecast average above the
    history's gives a non-negative percentage, one below a non-positive one.
   */
  lemma TrendFollowsForecast(y: seq<real>, frame: seq<Band>, k: nat)
    requires |y| > 0 && Mean(y) > 0.0 && |frame| > 0
    ensures var t := StatisticsOf(y, frame, k).trendPercentage;
      t.Real? && (Mean(Yhats(frame)) >= Mean(y) ==> t.value >= 0.0) && (Mean(Yhats(frame)) <= Mean(y) ==> t.value <= 0.0)
  {
    var h, f := Mean(y), Mean(Yhats(frame));
    RoundZero(2);
    if f >= h {
      DivMono(0.0, f - h, h);
      RoundMonotone(0.0, RelativeChange(f, h) * 100.0, 2);
    }
    if f <= h {
      DivMono(f - h, 0.0, h);
      RoundMonotone(RelativeChange(f, h) * 100.0, 0.0, 2);
    }
  }

  /** A fitted category averages its spending over its active days. */
  lemma FittedDailyMean(rows: Rows)
    requires |ActiveDays(rows)| > 0
    ensures Mean(GroupSums(rows, DayKey, ActiveDays(rows))) == Total(rows) / (|ActiveDays(rows)| as real)
  {
    GroupSumsPartition(rows, DayKey, ActiveDays(rows));
  }

  /** A category with fewer than seven expenses is always forecast by the shortcut. */
  lemma FewExpensesShortcut(rows: Rows, k: int, fit: Fit)
    requires 0 < |rows| < 7
    ensures CategoryEntry(rows, k, fit) == Entry(Shortcut(rows, k))
    ensures Shortcut(rows, k).predictedTotal == ScaledCents(Total(rows) / (|rows| as real), k as real)
  {
    assert |ActiveDays(rows)| <= |Keys(rows, DayKey)| == |rows|;
    ShortcutTotal(rows, k);
  }

  lemma ShortcutTotal(rows: Rows, k: int)
    requires |rows| > 0
    ensures Shortcut(rows, k).predictedTotal == ScaledCents(Total(rows) / (|rows| as real), k as real)
  {
    assert Mean(Amounts(rows)) == Total(rows) / (|rows| as real);
  }

  lemma ElementsSnoc(s: seq<string>, c: string)
    ensures (set x | x in s + [c]) == (set x | x in s) + {c}
  {
    assert forall x :: x in s + [c] <==> x in s || x == c;
  }

  lemma SnocLast<T>(s: seq<T>)
    requires |s| > 0
    ensures s == s[..|s| - 1] + [s[|s| - 1]]
  {
  }

  /** The dictionary has exactly one entry per category. */
  lemma {:induction false} CollectKeys(e: Rows, cats: seq<string>, k: int, fits: string -> Fit)
    requires AllCategories(e, cats)
    ensures var r := Collect(e, cats, k, fits);
      r.CategoryForecasts? ==> r.forecastPeriodDays == k && r.forecasts.Keys == set c | c in cats
  {
    if |cats| > 0 {
      var c, cats' := cats[|cats| - 1], cats[..|cats| - 1];
      CollectKeys(e, cats', k, fits);
      var r' := Collect(e, cats', k, fits);
      var entry := EntryOf(e, c, k, fits(c));
      if r'.CategoryFailed? || entry.EntryFailed? {
        assert Collect(e, cats, k, fits).CategoryFailed?;
      } else {
        var m := r'.forecasts[c := entry.forecast];
        assert Collect(e, cats, k, fits) == CategoryForecasts(m, k);
        assert m.Keys == r'.forecasts.Keys + {c};
        SnocLast(cats);
        ElementsSnoc(cats', c);
      }
    }
  }

  /** Each entry of the dictionary is its category's entry. */
  lemma {:induction false} CollectValues(e: Rows, cats: seq<string>, k: int, fits: string -> Fit)
    requires AllCategories(e, cats)
    ensures var r := Collect(e, cats, k, fits);
      r.CategoryForecasts? ==> forall c :: c in r.forecasts ==> c in Categories(e) && Entry(r.forecasts[c]) == EntryOf(e, c, k, fits(c))
  {
    if |cats| > 0 {
      var c, cats' := cats[|cats| - 1], cats[..|cats| - 1];
      CollectValues(e, cats', k, fits);
      CollectKeys(e, cats', k, fits);
      var r' := Collect(e, cats', k, fits);
      var entry := EntryOf(e, c, k, fits(c));
      if r'.CategoryForecasts? && entry.Entry? {
        var m := r'.forecasts[c := entry.forecast];
        assert Collect(e, cats, k, fits).forecasts == m;
        forall x | x in m ensures x in Categories(e) && Entry(m[x]) == EntryOf(e, x, k, fits(x)) {
          if x != c {
            assert x in r'.forecasts;
          }
        }
      }
    }
  }

  /** A failure carries the message of a category that needed a fit and whose fit raised. */
  lemma {:induction false} CollectFailure(e: Rows, cats: seq<string>, k: int, fits: string -> Fit)
    requires AllCategories(e, cats)
    ensures var r := Collect(e, cats, k, fits);
      r.CategoryFailed? ==>
        exists c :: c in cats && |ActiveDays(WithKey(e, CategoryKey, c))| >= 7 && fits(c) == FitFailed(r.error)
  {
    if |cats| > 0 {
      var c := cats[|cats| - 1];
      var cats' := cats[..|cats| - 1];
      CollectFailure(e, cats', k, fits);
      if Collect(e, cats', k, fits).CategoryFailed? {
        var x :| x in cats' && |ActiveDays(WithKey(e, CategoryKey, x))| >= 7 && fits(x) == FitFailed(Collect(e, cats', k, fits).error);
        assert x in cats;
      } else if Collect(e, cats, k, fits).CategoryFailed? {
        assert c in cats;
      }
    }
  }

  /** With every category active on fewer than seven days, no fit is consulted and nothing fails. */
  lemma {:induction false} ShortCategoriesNeverFail(e: Rows, cats: seq<string>, k: int, fits: string -> Fit)
    requires AllCategories(e, cats)
    requires forall i :: 0 <= i < |cats| ==> |ActiveDays(WithKey(e, CategoryKey, cats[i]))| < 7
    ensures Collect(e, cats, k, fits).CategoryForecasts?
  {
    if |cats| > 0 {
      ShortCategoriesNeverFail(e, cats[..|cats| - 1], k, fits);
      CategoryRowsNonEmpty(e, cats[|cats| - 1]);
    }
  }

  /**
    `get_category_forecast` fails only on an empty history or when a category
    that needed a fit had its fit raise; otherwise it has one entry per
    expense category, that category's entry.
   */
  lemma CategoryForecastFacts(l: Rows, k: int, fits: string -> Fit)
    ensures var r := CategoryForecastOf(l, k, fits);
      && (r.CategoryFailed? ==>
            (|l| == 0 && r.error == "No transaction data")
            || (exists c :: c in Categories(Expenses(l)) && |ActiveDays(WithKey(Expenses(l), CategoryKey, c))| >= 7
                                                      && fits(c) == FitFailed(r.error)))
      && (r.CategoryForecasts? ==>
            && r.forecastPeriodDays == k
            && r.forecasts.Keys == (set c | c in Categories(Expenses(l)))
            && forall c :: c in r.forecasts ==> c in Categories(Expenses(l)) && Entry(r.forecasts[c]) == EntryOf(Expenses(l), c, k, fits(c)))
  {
    if |l| > 0 {
      var e := Expenses(l);
      CollectKeys(e, Categories(e), k, fits);
      CollectValues(e, Categories(e), k, fits);
      CollectFailure(e, Categories(e), k, fits);
    }
  }
}
