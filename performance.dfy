/** The mock performance series behind the "Quantum Performance Trends" chart:
    one point per hour pair or per day of the selected time range, each with
    a label, an actual conversions figure and, in the forecast tail only, a
    predicted figure.

    `Math.sin` and `Math.random` are parameters: `sin` is the sine function
    and `random(k)` is the result of the k-th call to `Math.random()` made
    while the series is built. Arithmetic on the figures is exact real
    arithmetic; the comparison that decides the forecast tail is modelled on
    the double the source actually computes. */
module Performance {
  import opened Decimal

  datatype Option<T> = None | Some(value: T)

  /** The four selectable ranges '24H', '7D', '30D' and '90D'. */
  datatype TimeRange = Hours24 | Days7 | Days30 | Days90

  /** One chart point: `name`, `conversions` and `predicted` (null is None). */
  datatype Point = Point(name: string, conversions: int, predicted: Option<int>)

  /** Number of points generated for a range. */
  function PointCount(range: TimeRange): nat {
    match range
    case Hours24 => 12
    case Days7 => 7
    case Days30 => 30
    case Days90 => 90
  }

  /** The double nearest to 0.7, which is the value of the literal `0.7`. */
  const Seven10ths: real := 0.6999999999999999555910790149937383830547332763671875

  /** The double that `days * 0.7` evaluates to for the range's point count. */
  function ScaledCount(range: TimeRange): real {
    match range
    case Hours24 => 8.39999999999999857891452847979962825775146484375
    case Days7 => 4.89999999999999946709294817992486059665679931640625
    case Days30 => 21.0
    case Days90 => 62.99999999999999289457264239899814128875732421875
  }

  /** Spacing of doubles in the binade that holds ScaledCount(range). */
  function Ulp(range: TimeRange): real {
    match range
    case Hours24 => 1.0 / 562949953421312.0   // 2^-49, binade [8, 16)
    case Days7 => 1.0 / 1125899906842624.0    // 2^-50, binade [4, 8)
    case Days30 => 1.0 / 281474976710656.0    // 2^-48, binade [16, 32)
    case Days90 => 1.0 / 140737488355328.0    // 2^-47, binade [32, 64)
  }

  /** Each ScaledCount is a double of its binade and lies within half a unit
      in the last place of the exact product, so it is a correctly rounded
      value of `days * 0.7`. */
  lemma ScaledCountIsRoundedProduct(range: TimeRange)
    ensures Ulp(range) * 4503599627370496.0 <= ScaledCount(range) < Ulp(range) * 9007199254740992.0
    ensures (ScaledCount(range) / Ulp(range)).Floor as real == ScaledCount(range) / Ulp(range)
    ensures -Ulp(range) / 2.0 <= ScaledCount(range) - (PointCount(range) as real) * Seven10ths <= Ulp(range) / 2.0
  {
  }

  /** The source's tail test `i > days * 0.7`. */
  predicate InForecast(range: TimeRange, i: nat) {
    (i as real) > ScaledCount(range)
  }

  /** First index of the forecast tail: 9, 5, 22 and 63. The tail is never
      empty, never reaches index 0 and covers at most the last 30% of the
      points. */
  function ForecastStart(range: TimeRange): (f: nat)
    ensures 0 < f < PointCount(range)
    ensures 10 * (PointCount(range) - f) <= 3 * PointCount(range)
    ensures forall i: nat :: InForecast(range, i) <==> f <= i
  {
    match range
    case Hours24 => 9
    case Days7 => 5
    case Days30 => 22
    case Days90 => 63
  }

  /** The integer rule `10 * i > 7 * days` picks the same tail as the
      source's double comparison for three ranges; for 90D it misses index
      63, because `90 * 0.7` evaluates to a double just below 63. */
  lemma IntegerThreshold(range: TimeRange, i: nat)
    ensures range != Days90 ==> (InForecast(range, i) <==> 10 * i > 7 * PointCount(range))
    ensures range == Days90 ==> (InForecast(range, i) <==> 10 * i > 7 * PointCount(range) || i == 63)
  {
    assert InForecast(range, i) <==> ForecastStart(range) <= i;
  }

  /** Chart label of point i: "{2*i}:00" for 24H, "Day {i+1}" otherwise. */
  function Label(range: TimeRange, i: nat): string {
    if range == Hours24 then NatToString(2 * i) + ":00" else "Day " + NatToString(i + 1)
  }

  /** Labels of one range are pairwise distinct. */
  lemma LabelsDistinct(range: TimeRange, i: nat, j: nat)
    ensures Label(range, i) == Label(range, j) <==> i == j
  {
    if Label(range, i) == Label(range, j) {
      if range == Hours24 {
        var a, b := NatToString(2 * i), NatToString(2 * j);
        assert |a| == |b|;
        assert a == (a + ":00")[..|a|];
        assert b == (b + ":00")[..|b|];
      } else {
        var a, b := NatToString(i + 1), NatToString(j + 1);
        assert a == ("Day " + a)[4..];
        assert b == ("Day " + b)[4..];
      }
      NatToStringInjective(2 * i, 2 * j);
      NatToStringInjective(i + 1, j + 1);
    }
  }

  /** The 24H labels run 0:00, 2:00, ..., 22:00. */
  lemma IntradayLabels()
    ensures seq(12, i requires 0 <= i < 12 => Label(Hours24, i))
         == ["0:00", "2:00", "4:00", "6:00", "8:00", "10:00",
             "12:00", "14:00", "16:00", "18:00", "20:00", "22:00"]
  {
    assert Label(Hours24, 0) == "0:00";
    assert Label(Hours24, 1) == "2:00";
    assert Label(Hours24, 2) == "4:00";
    assert Label(Hours24, 3) == "6:00";
    assert Label(Hours24, 4) == "8:00";
    assert Label(Hours24, 5) == "10:00";
    assert Label(Hours24, 6) == "12:00";
    assert Label(Hours24, 7) == "14:00";
    assert Label(Hours24, 8) == "16:00";
    assert Label(Hours24, 9) == "18:00";
    assert Label(Hours24, 10) == "20:00";
    assert Label(Hours24, 11) == "22:00";
  }

  /** Position in the `Math.random()` stream of the draw used for point i's
      conversions: points are built in index order, and each point draws
      for `conversions` first and then, in the tail only, for `predicted`. */
  function ConversionDraw(range: TimeRange, i: nat): nat {
    var f := ForecastStart(range);
    if i < f then i else f + 2 * (i - f)
  }

  /** Position of the draw used for point i's `predicted` value. */
  function PredictedDraw(range: TimeRange, i: nat): nat {
    ConversionDraw(range, i) + 1
  }

  /** Number of `Math.random()` calls one series makes. */
  function DrawCount(range: TimeRange): nat {
    PointCount(range) + (PointCount(range) - ForecastStart(range))
  }

  /** Draws are used in evaluation order, each once, and all of the first
      DrawCount(range) draws are used. */
  lemma DrawsInEvaluationOrder(range: TimeRange, i: nat, j: nat)
    requires i < j < PointCount(range)
    ensures ConversionDraw(range, i) < ConversionDraw(range, j)
    ensures InForecast(range, i) ==> PredictedDraw(range, i) < ConversionDraw(range, j)
    ensures InForecast(range, j) ==> PredictedDraw(range, j) < DrawCount(range)
    ensures PredictedDraw(range, PointCount(range) - 1) == DrawCount(range) - 1
  {
  }

  /** `Math.sin(i / 5)`. */
  function SineAt(i: nat, sin: real -> real): real {
    sin((i as real) / 5.0)
  }

  /** `5000 + Math.sin(i / 5) * 1000`. */
  function BaseValue(i: nat, sin: real -> real): real {
    5000.0 + SineAt(i, sin) * 1000.0
  }

  function MakePoint(range: TimeRange, i: nat, sin: real -> real, random: nat -> real): Point {
    var base := BaseValue(i, sin);
    Point(
      Label(range, i),
      (base + random(ConversionDraw(range, i)) * 500.0).Floor,
      if InForecast(range, i)
      then Some((base * 1.1 + random(PredictedDraw(range, i)) * 600.0).Floor)
      else None)
  }

  /** `mockPerformanceData(range)`: one point per index, with the range's
      point count, its labels, and a predicted value exactly in the tail. */
  function MockPerformanceData(range: TimeRange, sin: real -> real, random: nat -> real): (points: seq<Point>)
    ensures |points| == PointCount(range)
    ensures forall i :: 0 <= i < |points| ==> points[i].name == Label(range, i)
    ensures forall i :: 0 <= i < |points| ==> (points[i].predicted.Some? <==> (i as real) > ScaledCount(range))
  {
    seq(PointCount(range), i requires 0 <= i < PointCount(range) => MakePoint(range, i, sin, random))
  }

  ghost predicate SineBounded(sin: real -> real) {
    forall x :: -1.0 <= sin(x) <= 1.0
  }

  ghost predicate RandomBounded(random: nat -> real) {
    forall k: nat :: 0.0 <= random(k) < 1.0
  }

  /** With sine in [-1, 1] and every draw in [0, 1), conversions lie in
      [4000, 6499] and predicted values in [4400, 7199]; both are
      non-negative. */
  lemma ValueBounds(range: TimeRange, sin: real -> real, random: nat -> real, i: nat)
    requires SineBounded(sin) && RandomBounded(random)
    requires i < PointCount(range)
    ensures var p := MockPerformanceData(range, sin, random)[i];
      && 4000 <= p.conversions <= 6499
      && (p.predicted.Some? ==> 4400 <= p.predicted.value <= 7199)
  {
    assert MockPerformanceData(range, sin, random)[i] == MakePoint(range, i, sin, random);
    PointBounds(range, i, sin, random);
  }

  lemma PointBounds(range: TimeRange, i: nat, sin: real -> real, random: nat -> real)
    requires SineBounded(sin) && RandomBounded(random)
    ensures var p := MakePoint(range, i, sin, random);
      && 4000 <= p.conversions <= 6499
      && (p.predicted.Some? ==> 4400 <= p.predicted.value <= 7199)
  {
    var base := BaseValue(i, sin);
    assert -1.0 <= SineAt(i, sin) <= 1.0;
    assert 4000.0 <= base <= 6000.0;
    var r := random(ConversionDraw(range, i));
    assert 0.0 <= r < 1.0;
    FloorBetween(base + r * 500.0, 4000, 6500);
    if InForecast(range, i) {
      var q := random(PredictedDraw(range, i));
      assert 0.0 <= q < 1.0;
      FloorBetween(base * 1.1 + q * 600.0, 4400, 7200);
    }
  }

  lemma FloorBetween(x: real, lo: int, hi: int)
    requires lo as real <= x < hi as real
    ensures lo <= x.Floor < hi
  {
  }

  /** The forecast tail is a suffix of the series that never includes the
      first point. */
  lemma ForecastIsSuffix(range: TimeRange, sin: real -> real, random: nat -> real, i: nat, j: nat)
    requires i <= j < PointCount(range)
    ensures var points := MockPerformanceData(range, sin, random);
      && points[0].predicted.None?
      && (points[i].predicted.Some? ==> points[j].predicted.Some?)
      && (points[j].predicted.Some? <==> ForecastStart(range) <= j)
  {
    assert InForecast(range, i) <==> ForecastStart(range) <= i;
    assert InForecast(range, j) <==> ForecastStart(range) <= j;
    assert !InForecast(range, 0);
  }

  /** The series depends only on the sine values at i / 5 and on the first
      DrawCount(range) random draws: a seeded source reproduces it. */
  lemma Reproducible(range: TimeRange, sin1: real -> real, sin2: real -> real,
                     random1: nat -> real, random2: nat -> real)
    requires forall i: nat :: i < PointCount(range) ==> SineAt(i, sin1) == SineAt(i, sin2)
    requires forall k: nat :: k < DrawCount(range) ==> random1(k) == random2(k)
    ensures MockPerformanceData(range, sin1, random1) == MockPerformanceData(range, sin2, random2)
  {
    var p1, p2 := MockPerformanceData(range, sin1, random1), MockPerformanceData(range, sin2, random2);
    forall i | 0 <= i < PointCount(range)
      ensures p1[i] == p2[i]
    {
      var last := PointCount(range) - 1;
      if i < last {
        DrawsInEvaluationOrder(range, i, last);
      } else {
        DrawsInEvaluationOrder(range, 0, last);
      }
      SamePoint(range, i, sin1, sin2, random1, random2);
    }
  }

  lemma SamePoint(range: TimeRange, i: nat, sin1: real -> real, sin2: real -> real,
                  random1: nat -> real, random2: nat -> real)
    requires SineAt(i, sin1) == SineAt(i, sin2)
    requires random1(ConversionDraw(range, i)) == random2(ConversionDraw(range, i))
    requires InForecast(range, i) ==> random1(PredictedDraw(range, i)) == random2(PredictedDraw(range, i))
    ensures MakePoint(range, i, sin1, random1) == MakePoint(range, i, sin2, random2)
  {
  }

  /** With every draw 0, the 24H series has predicted values at indices
      9, 10 and 11 only. */
  lemma IntradayForecast(sin: real -> real)
    ensures var points := MockPerformanceData(Hours24, sin, k => 0.0);
      forall i :: 0 <= i < 12 ==> (points[i].predicted.Some? <==> 9 <= i)
  {
    var points := MockPerformanceData(Hours24, sin, k => 0.0);
    forall i | 0 <= i < 12
      ensures points[i].predicted.Some? <==> 9 <= i
    {
      assert InForecast(Hours24, i) <==> 9 <= i;
    }
  }
}
