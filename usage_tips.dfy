/** The usage-tip rule behind `GET /tips`: three pieces of advice chosen by
    comparing the monthly averages of electric consumption, water
    consumption and cost against fixed thresholds. */
module UsageTips {
  import opened Http

  /** One row of the monthly aggregation: the three summed columns of a month. */
  datatype MonthlyTotal = MonthlyTotal(month: string, electric: real, water: real, cost: real)

  /** The three measured quantities, in the order their tips are listed. */
  datatype Metric = Electric | Water | Cost

  function Measure(row: MonthlyTotal, m: Metric): real
  {
    match m
    case Electric => row.electric
    case Water => row.water
    case Cost => row.cost
  }

  /** The average above which a metric earns the warning tip. */
  function Threshold(m: Metric): real
  {
    match m
    case Electric => 100.0
    case Water => 500.0
    case Cost => 50.0
  }

  /** Where the tip about `m` stands in the list of tips. */
  function Position(m: Metric): nat
  {
    match m
    case Electric => 0
    case Water => 1
    case Cost => 2
  }

  const HighElectricTip := "Your average electric consumption is quite high. Consider using energy-efficient appliances to reduce consumption."
  const GoodElectricTip := "Great job! Your electric consumption is within a good range. Keep it up!"
  const HighWaterTip := "Your water consumption is above average. Try using water-saving techniques, such as shorter wash cycles."
  const GoodWaterTip := "Your water consumption is within a reasonable range. Continue practicing good habits."
  const HighCostTip := "Your total cost is relatively high. Look into peak-hour rates and try to run appliances during off-peak hours to save money."
  const GoodCostTip := "Your cost is well-managed. Keep monitoring your usage to maintain this balance."

  function HighTip(m: Metric): string
  {
    match m
    case Electric => HighElectricTip
    case Water => HighWaterTip
    case Cost => HighCostTip
  }

  function GoodTip(m: Metric): string
  {
    match m
    case Electric => GoodElectricTip
    case Water => GoodWaterTip
    case Cost => GoodCostTip
  }

  /** The warning tip and the praise tip of a metric are different texts,
      so a reader of the tip list can tell which branch was taken. */
  lemma TipsDiffer(m: Metric)
    ensures HighTip(m) != GoodTip(m)
  {
    match m
    case Electric => assert |HighElectricTip| == 114 && |GoodElectricTip| == 72;
    case Water => assert |HighWaterTip| == 104 && |GoodWaterTip| == 85;
    case Cost => assert |HighCostTip| == 124 && |GoodCostTip| == 79;
  }

  /** `data.reduce((acc, curr) => acc + curr.<metric>, 0)`: a left fold from 0. */
  function Total(data: seq<MonthlyTotal>, m: Metric): real
  {
    if data == [] then 0.0 else Total(data[..|data| - 1], m) + Measure(data[|data| - 1], m)
  }

  /** The total divided by the number of months. For no months the division
      is 0 / 0, which is NaN in JavaScript; `None` stands for that NaN. */
  function Average(data: seq<MonthlyTotal>, m: Metric): (avg: Option<real>)
    ensures avg.None? <==> data == []
    ensures avg.Some? ==> avg.value * (|data| as real) == Total(data, m)
  {
    if data == [] then None else Some(Total(data, m) / (|data| as real))
  }

  /** JavaScript's `avg > threshold`, which is false when `avg` is NaN. */
  predicate Above(avg: Option<real>, threshold: real)
  {
    avg.Some? && avg.value > threshold
  }

  function TipFor(data: seq<MonthlyTotal>, m: Metric): string
  {
    if Above(Average(data, m), Threshold(m)) then HighTip(m) else GoodTip(m)
  }

  /** The three tips, pushed in the order electric, water, cost. */
  function GenerateTips(data: seq<MonthlyTotal>): (tips: seq<string>)
    ensures |tips| == 3
    ensures tips[0] == HighElectricTip || tips[0] == GoodElectricTip
    ensures tips[1] == HighWaterTip || tips[1] == GoodWaterTip
    ensures tips[2] == HighCostTip || tips[2] == GoodCostTip
  {
    [TipFor(data, Electric), TipFor(data, Water), TipFor(data, Cost)]
  }

  /** A metric's tip is the warning exactly when its total exceeds the
      threshold times the number of months, that is, when the average is
      strictly above the threshold; otherwise it is the praise tip. */
  lemma TipIsHighIff(data: seq<MonthlyTotal>, m: Metric)
    ensures GenerateTips(data)[Position(m)] == HighTip(m)
            <==> |data| > 0 && Total(data, m) > Threshold(m) * (|data| as real)
    ensures GenerateTips(data)[Position(m)] == GoodTip(m)
            <==> !(|data| > 0 && Total(data, m) > Threshold(m) * (|data| as real))
  {
    TipsDiffer(m);
    AboveIffTotalExceeds(data, m);
    assert GenerateTips(data)[Position(m)] == TipFor(data, m) by {
      match m
      case Electric =>
      case Water =>
      case Cost =>
    }
  }

  /** The averaged comparison, restated without division. */
  lemma AboveIffTotalExceeds(data: seq<MonthlyTotal>, m: Metric)
    ensures Above(Average(data, m), Threshold(m))
            <==> |data| > 0 && Total(data, m) > Threshold(m) * (|data| as real)
  {
    var avg := Average(data, m);
    if avg.Some? {
      AboveIffScaled(avg.value, |data| as real, Total(data, m), Threshold(m));
    }
  }

  /** For a positive count `n`, an average exceeds `t` exactly when the
      total it was divided from exceeds `t * n`. */
  lemma AboveIffScaled(avg: real, n: real, total: real, t: real)
    requires n > 0.0 && avg * n == total
    ensures avg > t <==> total > t * n
  {
    if avg > t {
      assert (avg - t) * n > 0.0;
    } else {
      assert (t - avg) * n >= 0.0;
    }
  }

  /** With no months at all every average is NaN, so every tip is the praise tip. */
  lemma NoDataGivesGoodTips()
    ensures GenerateTips([]) == [GoodElectricTip, GoodWaterTip, GoodCostTip]
  {
  }

  /** Total of a column whose every entry is `c`. */
  lemma {:induction false} TotalOfUniform(data: seq<MonthlyTotal>, m: Metric, c: real)
    requires forall i :: 0 <= i < |data| ==> Measure(data[i], m) == c
    ensures Total(data, m) == c * (|data| as real)
  {
    if data != [] {
      TotalOfUniform(data[..|data| - 1], m, c);
    }
  }

  /** The thresholds are strict: months that sit exactly on the threshold
      (an average of exactly 100 for electricity) earn the praise tip. */
  lemma UniformAtThresholdIsGood(data: seq<MonthlyTotal>, m: Metric)
    requires |data| > 0
    requires forall i :: 0 <= i < |data| ==> Measure(data[i], m) == Threshold(m)
    ensures GenerateTips(data)[Position(m)] == GoodTip(m)
  {
    TotalOfUniform(data, m, Threshold(m));
    TipIsHighIff(data, m);
  }

  /** The fold is monotone in every month's entry. */
  lemma {:induction false} TotalMonotone(lo: seq<MonthlyTotal>, hi: seq<MonthlyTotal>, m: Metric)
    requires |lo| == |hi|
    requires forall i :: 0 <= i < |lo| ==> Measure(lo[i], m) <= Measure(hi[i], m)
    ensures Total(lo, m) <= Total(hi, m)
  {
    if lo != [] {
      TotalMonotone(lo[..|lo| - 1], hi[..|hi| - 1], m);
    }
  }

  /** Raising some months' figures for a metric never turns its warning
      tip back into the praise tip. */
  lemma WarningSurvivesIncrease(lo: seq<MonthlyTotal>, hi: seq<MonthlyTotal>, m: Metric)
    requires |lo| == |hi|
    requires forall i :: 0 <= i < |lo| ==> Measure(lo[i], m) <= Measure(hi[i], m)
    requires GenerateTips(lo)[Position(m)] == HighTip(m)
    ensures GenerateTips(hi)[Position(m)] == HighTip(m)
  {
    TipIsHighIff(lo, m);
    TotalMonotone(lo, hi, m);
    TipIsHighIff(hi, m);
  }

  /** Each tip depends only on its own column: two month lists of the same
      length that agree on metric `m` get the same tip for `m`, whatever
      their other columns hold. */
  lemma TipDependsOnlyOnItsMetric(a: seq<MonthlyTotal>, b: seq<MonthlyTotal>, m: Metric)
    requires |a| == |b|
    requires forall i :: 0 <= i < |a| ==> Measure(a[i], m) == Measure(b[i], m)
    ensures GenerateTips(a)[Position(m)] == GenerateTips(b)[Position(m)]
  {
    TotalMonotone(a, b, m);
    TotalMonotone(b, a, m);
    TipIsHighIff(a, m);
    TipIsHighIff(b, m);
  }

  /** Rewriting one month's water and cost figures leaves the electric tip as it was. */
  lemma ElectricTipIgnoresWaterAndCost(data: seq<MonthlyTotal>, k: nat, water: real, cost: real)
    requires k < |data|
    ensures GenerateTips(data[k := data[k].(water := water, cost := cost)])[0] == GenerateTips(data)[0]
  {
    var edited := data[k := data[k].(water := water, cost := cost)];
    assert forall i :: 0 <= i < |data| ==> Measure(edited[i], Electric) == Measure(data[i], Electric);
    TipDependsOnlyOnItsMetric(edited, data, Electric);
  }
}
