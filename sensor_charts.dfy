/** The data the charts component derives from a reading series: the rows
    handed to the chart library, and the statistics block (latest reading,
    full-series mean and padded integer axis domain for each metric). Numbers
    are exact reals; the display rounding (`toFixed`) is not modelled. */
module SensorCharts {
  import opened SensorTypes

  /** One chart row. The source also carries two locale-formatted labels of
      the timestamp (`time`, `fullTime`); the row keeps the instant they are
      rendered from. */
  datatype ChartPoint = ChartPoint(
    time: Date,
    temperature: real,
    humidity: real,
    airQuality: real,
    smoke: real
  )

  /** `data.map(item => ({...}))`: one row per reading, in order, with the
      four metric values copied unchanged. */
  function ChartData(data: seq<SensorData>): (rows: seq<ChartPoint>)
    ensures |rows| == |data|
    ensures forall i :: 0 <= i < |rows| ==>
      && rows[i].time == data[i].timestamp
      && rows[i].temperature == data[i].temperature
      && rows[i].humidity == data[i].humidity
      && rows[i].airQuality == data[i].airQuality
      && rows[i].smoke == data[i].smoke
  {
    seq(|data|, i requires 0 <= i < |data| =>
      ChartPoint(data[i].timestamp, data[i].temperature, data[i].humidity,
                 data[i].airQuality, data[i].smoke))
  }

  datatype Metric = Temperature | Humidity | AirQuality | Smoke

  /** The value of one metric in a reading. */
  function Value(item: SensorData, m: Metric): real {
    match m
    case Temperature => item.temperature
    case Humidity => item.humidity
    case AirQuality => item.airQuality
    case Smoke => item.smoke
  }

  /** Axis headroom per metric. */
  function Pad(m: Metric): (pad: real)
    ensures pad >= 1.0
  {
    match m
    case Temperature => 1.0
    case Humidity => 2.0
    case AirQuality => 5.0
    case Smoke => 5.0
  }

  /** `data.map(item => item.<metric>)`. */
  function Values(data: seq<SensorData>, m: Metric): (vs: seq<real>)
    ensures |vs| == |data|
    ensures forall i :: 0 <= i < |vs| ==> vs[i] == Value(data[i], m)
  {
    seq(|data|, i requires 0 <= i < |data| => Value(data[i], m))
  }

  /** `xs.reduce((sum, x) => sum + x, 0)`: a left fold from 0. */
  function Sum(xs: seq<real>): real {
    if xs == [] then 0.0 else Sum(xs[..|xs| - 1]) + xs[|xs| - 1]
  }

  /** Summing a concatenation is adding the two sums: the left-to-right order
      of `reduce` does not change the total. */
  lemma {:induction false} SumAppend(xs: seq<real>, ys: seq<real>)
    ensures Sum(xs + ys) == Sum(xs) + Sum(ys)
  {
    if ys != [] {
      var init := ys[..|ys| - 1];
      SumAppend(xs, init);
      assert (xs + ys)[..|xs + ys| - 1] == xs + init;
    } else {
      assert xs + ys == xs;
    }
  }

  /** `Math.min(...xs)` on a non-empty list: no element is below it (and it
      is one of the elements, see MinOfIsElement). */
  function MinOf(xs: seq<real>): (lo: real)
    requires xs != []
    ensures forall i :: 0 <= i < |xs| ==> lo <= xs[i]
  {
    if |xs| == 1 then xs[0]
    else
      var rest := MinOf(xs[..|xs| - 1]);
      if xs[|xs| - 1] < rest then xs[|xs| - 1] else rest
  }

  /** `Math.max(...xs)` on a non-empty list: no element is above it (and it
      is one of the elements, see MaxOfIsElement). */
  function MaxOf(xs: seq<real>): (hi: real)
    requires xs != []
    ensures forall i :: 0 <= i < |xs| ==> xs[i] <= hi
  {
    if |xs| == 1 then xs[0]
    else
      var rest := MaxOf(xs[..|xs| - 1]);
      if xs[|xs| - 1] > rest then xs[|xs| - 1] else rest
  }

  /** The minimum is attained: it is one of the list's elements. */
  lemma {:induction false} MinOfIsElement(xs: seq<real>)
    requires xs != []
    ensures MinOf(xs) in xs
  {
    if |xs| > 1 {
      var init := xs[..|xs| - 1];
      MinOfIsElement(init);
      assert MinOf(init) in xs by {
        var i :| 0 <= i < |init| && init[i] == MinOf(init);
        assert xs[i] == init[i];
      }
    }
  }

  /** The maximum is attained: it is one of the list's elements. */
  lemma {:induction false} MaxOfIsElement(xs: seq<real>)
    requires xs != []
    ensures MaxOf(xs) in xs
  {
    if |xs| > 1 {
      var init := xs[..|xs| - 1];
      MaxOfIsElement(init);
      assert MaxOf(init) in xs by {
        var i :| 0 <= i < |init| && init[i] == MaxOf(init);
        assert xs[i] == init[i];
      }
    }
  }

  /** `Math.floor`: the greatest integer not above x. */
  function Floor(x: real): (n: int)
    ensures n as real <= x < n as real + 1.0
  {
    x.Floor
  }

  /** `Math.ceil`: the least integer not below x. */
  function Ceil(x: real): (n: int)
    ensures x <= n as real < x + 1.0
  {
    -((-x).Floor)
  }

  /** A chart's y-axis range `[lower, upper]`. */
  datatype Domain = Domain(lower: int, upper: int)

  /** The source's four-key objects (`avg`, `domains`). */
  datatype PerMetric<T> = PerMetric(temperature: T, humidity: T, airQuality: T, smoke: T) {
    function Get(m: Metric): T {
      match m
      case Temperature => temperature
      case Humidity => humidity
      case AirQuality => airQuality
      case Smoke => smoke
    }
  }

  datatype Stats = Stats(latest: SensorData, avg: PerMetric<real>, domains: PerMetric<Domain>)

  /** Full-series arithmetic mean of one metric: the sum over every reading
      divided by the count, which lies between the smallest and the largest
      value. */
  function Average(data: seq<SensorData>, m: Metric): (avg: real)
    requires data != []
    ensures MinOf(Values(data, m)) <= avg <= MaxOf(Values(data, m))
  {
    var vs := Values(data, m);
    MeanBetween(vs);
    Sum(vs) / |vs| as real
  }

  /** `[floor(min - pad), ceil(max + pad)]` for one metric: every value of
      the metric sits at least `pad` inside it on both sides, and each bound
      is the nearest integer that does so (less than one unit beyond
      `min - pad` and `max + pad`). */
  function MetricDomain(data: seq<SensorData>, m: Metric): (d: Domain)
    requires data != []
    ensures forall i :: 0 <= i < |data| ==>
      d.lower as real <= Value(data[i], m) - Pad(m) && Value(data[i], m) + Pad(m) <= d.upper as real
    ensures var vs := Values(data, m);
      && MinOf(vs) - Pad(m) - 1.0 < d.lower as real <= MinOf(vs) - Pad(m)
      && MaxOf(vs) + Pad(m) <= d.upper as real < MaxOf(vs) + Pad(m) + 1.0
  {
    var vs := Values(data, m);
    Domain(Floor(MinOf(vs) - Pad(m)), Ceil(MaxOf(vs) + Pad(m)))
  }

  /** The memoised `stats` block: absent for an empty series, otherwise the
      last reading with the mean and axis domain of each metric. */
  function ComputeStats(data: seq<SensorData>): (r: Option<Stats>)
    ensures r.None? <==> data == []
    ensures r.Some? ==> r.value.latest == data[|data| - 1]
  {
    if data == [] then None
    else
      Some(Stats(
        data[|data| - 1],
        PerMetric(Average(data, Temperature), Average(data, Humidity),
                  Average(data, AirQuality), Average(data, Smoke)),
        PerMetric(MetricDomain(data, Temperature), MetricDomain(data, Humidity),
                  MetricDomain(data, AirQuality), MetricDomain(data, Smoke))))
  }

  /** Every metric of the statistics block is the one computed for that metric. */
  lemma StatsPerMetric(data: seq<SensorData>, m: Metric)
    requires data != []
    ensures ComputeStats(data).value.avg.Get(m) == Average(data, m)
    ensures ComputeStats(data).value.domains.Get(m) == MetricDomain(data, m)
  {
  }

  /** A lower bound of every element bounds the sum from below. */
  lemma {:induction false} SumAtLeast(xs: seq<real>, b: real)
    requires forall i :: 0 <= i < |xs| ==> b <= xs[i]
    ensures |xs| as real * b <= Sum(xs)
  {
    if xs != [] {
      var init := xs[..|xs| - 1];
      SumAtLeast(init, b);
      assert |xs| as real * b == |init| as real * b + b;
    }
  }

  /** An upper bound of every element bounds the sum from above. */
  lemma {:induction false} SumAtMost(xs: seq<real>, b: real)
    requires forall i :: 0 <= i < |xs| ==> xs[i] <= b
    ensures Sum(xs) <= |xs| as real * b
  {
    if xs != [] {
      var init := xs[..|xs| - 1];
      SumAtMost(init, b);
      assert |xs| as real * b == |init| as real * b + b;
    }
  }

  /** The mean of a non-empty list lies between its minimum and maximum. */
  lemma MeanBetween(xs: seq<real>)
    requires xs != []
    ensures MinOf(xs) <= Sum(xs) / |xs| as real <= MaxOf(xs)
  {
    var lo, hi, total, n := MinOf(xs), MaxOf(xs), Sum(xs), |xs| as real;
    SumAtLeast(xs, lo);
    SumAtMost(xs, hi);
    DivBounds(total, n, lo, hi);
  }

  /** Each mean lies between that metric's smallest and largest value. */
  lemma AverageBetweenMinAndMax(data: seq<SensorData>, m: Metric)
    requires data != []
    ensures var vs := Values(data, m);
      MinOf(vs) <= ComputeStats(data).value.avg.Get(m) <= MaxOf(vs)
  {
  }

  /** Dividing n*lo <= s <= n*hi by a positive n. */
  lemma DivBounds(s: real, n: real, lo: real, hi: real)
    requires n > 0.0 && n * lo <= s <= n * hi
    ensures lo <= s / n <= hi
  {
  }

  /** For a one-reading series the mean of every metric is the latest value. */
  lemma SingleReadingAverageIsLatest(data: seq<SensorData>, m: Metric)
    requires |data| == 1
    ensures var s := ComputeStats(data).value;
      s.avg.Get(m) == Value(s.latest, m)
  {
  }

  /** Every value sits at least `pad` inside its axis domain, on both sides. */
  lemma DomainBounds(data: seq<SensorData>, m: Metric, i: nat)
    requires i < |data|
    ensures var d := ComputeStats(data).value.domains.Get(m);
      && d.lower as real <= Value(data[i], m) - Pad(m)
      && Value(data[i], m) + Pad(m) <= d.upper as real
  {
  }

  /** Each domain is a proper interval at least two pads wide. */
  lemma DomainWidth(data: seq<SensorData>, m: Metric)
    requires data != []
    ensures var d := ComputeStats(data).value.domains.Get(m);
      (d.upper - d.lower) as real >= 2.0 * Pad(m) > 0.0
  {
  }

  /** Readings with smoke 100 and then 450: the latest smoke is 450 and the
      mean smoke is 275. */
  lemma TwoReadingScenario(a: SensorData, b: SensorData)
    requires a.smoke == 100.0 && b.smoke == 450.0
    ensures var s := ComputeStats([a, b]).value;
      s.latest.smoke == 450.0 && s.avg.smoke == 275.0
  {
    var vs := Values([a, b], Smoke);
    assert vs == [100.0, 450.0];
    assert vs[..1] == [100.0] && vs[..1][..0] == [];
    assert Sum(vs[..1]) == 100.0;
    StatsPerMetric([a, b], Smoke);
  }
}
