// The day-by-day marketing campaign simulation: fixed lookup tables with
// fallbacks, one pass per day that accumulates clicks, impressions, sales and
// profit, a list of cumulative snapshots, and its projection into the
// "performance over time" chart series.
//
// The random draws of the original are supplied by the caller, one `Draws`
// triple per day; floats are `real`.

module SimulationLogic {
  import opened PythonRound
  import opened DecimalText

  // ---------------------------------------------------------------------------
  // Lookup tables

  /** Average cost per click, by channel (euros). */
  const BaseCpc: map<string, real> :=
    map["facebook" := 0.8, "instagram" := 0.9, "google" := 1.5, "tiktok" := 0.6]
  /** Average conversion rate, by product type. */
  const BaseConversionRate: map<string, real> :=
    map["e-commerce" := 0.02, "saas" := 0.01, "app" := 0.03, "local" := 0.025]
  /** Average order value, by product type (euros). */
  const BaseAov: map<string, real> :=
    map["e-commerce" := 60.0, "saas" := 120.0, "app" := 10.0, "local" := 80.0]

  const DefaultCpc: real := 1.0
  const DefaultConversionRate: real := 0.015
  const DefaultAov: real := 75.0

  // Adjustment multipliers; all are 1.0 in the simulation.
  const CpcMultiplier: real := 1.0
  const ConversionMultiplier: real := 1.0
  const AovMultiplier: real := 1.0

  /** The budget is treated as a monthly one and spread over this many days. */
  const BudgetDays: real := 30.0

  /** Cost per click of `channel`; an unknown channel falls back to the default. */
  function Cpc(channel: string): (cpc: real)
    ensures cpc > 0.0
    ensures channel in BaseCpc ==> cpc == BaseCpc[channel]
    ensures channel !in BaseCpc ==> cpc == DefaultCpc
  {
    (if channel in BaseCpc then BaseCpc[channel] else DefaultCpc) * CpcMultiplier
  }

  /** Conversion rate of `productType`; an unknown product type falls back to the default. */
  function ConversionRate(productType: string): (rate: real)
    ensures rate > 0.0
    ensures productType in BaseConversionRate ==> rate == BaseConversionRate[productType]
    ensures productType !in BaseConversionRate ==> rate == DefaultConversionRate
  {
    (if productType in BaseConversionRate then BaseConversionRate[productType]
     else DefaultConversionRate) * ConversionMultiplier
  }

  /** Average order value of `productType`; an unknown product type falls back to the default. */
  function Aov(productType: string): (aov: real)
    ensures aov > 0.0
    ensures productType in BaseAov ==> aov == BaseAov[productType]
    ensures productType !in BaseAov ==> aov == DefaultAov
  {
    (if productType in BaseAov then BaseAov[productType] else DefaultAov) * AovMultiplier
  }

  /** The three constants one run works with, resolved once before the daily loop. */
  datatype Rates = Rates(cpc: real, conversionRate: real, aov: real)

  predicate PositiveRates(r: Rates)
  {
    r.cpc > 0.0 && r.conversionRate > 0.0 && r.aov > 0.0
  }

  function RatesFor(productType: string, channel: string): (r: Rates)
    ensures PositiveRates(r)
  {
    Rates(Cpc(channel), ConversionRate(productType), Aov(productType))
  }

  /** The lookups agree, key by key, with the tables written out as a case
      analysis: each listed key gives its entry and every other key the fallback. */
  lemma LookupsByCase(productType: string, channel: string)
    ensures Cpc(channel) ==
      if channel == "facebook" then 0.8
      else if channel == "instagram" then 0.9
      else if channel == "google" then 1.5
      else if channel == "tiktok" then 0.6
      else 1.0
    ensures ConversionRate(productType) ==
      if productType == "e-commerce" then 0.02
      else if productType == "saas" then 0.01
      else if productType == "app" then 0.03
      else if productType == "local" then 0.025
      else 0.015
    ensures Aov(productType) ==
      if productType == "e-commerce" then 60.0
      else if productType == "saas" then 120.0
      else if productType == "app" then 10.0
      else if productType == "local" then 80.0
      else 75.0
  {
  }

  // ---------------------------------------------------------------------------
  // One simulated day

  /** The three random draws of one day: the click noise (uniform on
      [-0.1, 0.1]), the impressions-per-click ratio (uniform on [8, 12]) and
      the sales noise (uniform on [-0.15, 0.15]). */
  datatype Draws = Draws(clickNoise: real, impressionRatio: real, salesNoise: real)

  predicate InRange(d: Draws)
  {
    -0.1 <= d.clickNoise <= 0.1 &&
    8.0 <= d.impressionRatio <= 12.0 &&
    -0.15 <= d.salesNoise <= 0.15
  }

  predicate AllInRange(draws: seq<Draws>)
  {
    forall i :: 0 <= i < |draws| ==> InRange(draws[i])
  }

  datatype DayResult = DayResult(
    clicks: real, impressions: real, sales: int, revenue: real, cost: real, profit: real)

  /** The day's share of the budget: the same on every day, whatever the duration. */
  function DailyBudget(budget: real): real
  {
    budget / BudgetDays
  }

  /** The clicks the day's budget buys before the floor of one click. */
  function RawClicks(r: Rates, budget: real, d: Draws): real
    requires r.cpc > 0.0
  {
    DailyBudget(budget) / r.cpc * (1.0 + d.clickNoise)
  }

  /** The day's clicks: the raw clicks, but never fewer than one. */
  function DailyClicks(r: Rates, budget: real, d: Draws): (clicks: real)
    requires r.cpc > 0.0
    ensures clicks >= 1.0 && clicks >= RawClicks(r, budget, d)
    ensures clicks == 1.0 || clicks == RawClicks(r, budget, d)
  {
    var rawClicks := RawClicks(r, budget, d);
    if 1.0 > rawClicks then 1.0 else rawClicks
  }

  /** The day's impressions: between 8 and 12 per click when the ratio is in range. */
  function DailyImpressions(clicks: real, d: Draws): (impressions: real)
    requires clicks >= 0.0
    ensures InRange(d) ==> 8.0 * clicks <= impressions <= 12.0 * clicks
  {
    clicks * d.impressionRatio
  }

  /** The day's sales: the whole number nearest to the expected sales. */
  function DailySales(clicks: real, rate: real, d: Draws): (sales: int)
    ensures -0.5 <= sales as real - clicks * rate * (1.0 + d.salesNoise) <= 0.5
    ensures clicks >= 0.0 && rate >= 0.0 && InRange(d) ==> sales >= 0
  {
    var expectedSales := clicks * rate * (1.0 + d.salesNoise);
    RoundHalfEven(expectedSales)
  }

  /** The day's figures, from the rates, the budget and the day's draws. */
  function SimulateDay(r: Rates, budget: real, d: Draws): (day: DayResult)
    requires r.cpc > 0.0
    ensures day.clicks >= 1.0
    ensures InRange(d) ==> 8.0 * day.clicks <= day.impressions <= 12.0 * day.clicks
    ensures r.conversionRate >= 0.0 && InRange(d) ==> day.sales >= 0
    ensures day.cost == budget / 30.0
    ensures day.profit == day.sales as real * r.aov - budget / 30.0
  {
    var clicks := DailyClicks(r, budget, d);
    var sales := DailySales(clicks, r.conversionRate, d);
    var revenue := sales as real * r.aov;
    var cost := DailyBudget(budget);
    DayResult(clicks, DailyImpressions(clicks, d), sales, revenue, cost, revenue - cost)
  }

  // ---------------------------------------------------------------------------
  // Running totals and the cumulative snapshots

  /** The figures of every day, in order. */
  function DayResults(r: Rates, budget: real, draws: seq<Draws>): (days: seq<DayResult>)
    requires r.cpc > 0.0
  {
    seq(|draws|, i requires 0 <= i < |draws| => SimulateDay(r, budget, draws[i]))
  }

  datatype Totals = Totals(clicks: real, impressions: real, sales: int, profit: real)

  const NoTotals: Totals := Totals(0.0, 0.0, 0, 0.0)

  function Accumulate(t: Totals, day: DayResult): Totals
  {
    Totals(t.clicks + day.clicks, t.impressions + day.impressions,
           t.sales + day.sales, t.profit + day.profit)
  }

  /** The running totals after the first `n` days. */
  function TotalsAfter(days: seq<DayResult>, n: nat): Totals
    requires n <= |days|
    decreases n
  {
    if n == 0 then NoTotals
    else Accumulate(TotalsAfter(days, n - 1), days[n - 1])
  }

  /** One entry of the daily list: the day number and the cumulative figures so far. */
  datatype Snapshot = Snapshot(day: nat, cumulative: Totals)

  /** The daily list after the first `n` days. */
  function Snapshots(days: seq<DayResult>, n: nat): (daily: seq<Snapshot>)
    requires n <= |days|
    ensures |daily| == n
    decreases n
  {
    if n == 0 then []
    else Snapshots(days, n - 1) + [Snapshot(n, TotalsAfter(days, n))]
  }

  // ---------------------------------------------------------------------------
  // Chart series and the whole result

  datatype PerformanceOverTime = PerformanceOverTime(
    labels: seq<string>, clicks: seq<real>, sales: seq<int>, profit: seq<real>)

  /** Only the performance-over-time chart is produced here. */
  datatype ChartsData = ChartsData(performanceOverTime: PerformanceOverTime)

  /** The totals and the chart series; impressions appear only as a total. */
  datatype SimulationResult = SimulationResult(
    clicks: real, impressions: real, sales: int, profit: real, chartsData: ChartsData)

  function DayLabel(day: nat): string
  {
    "Day " + DecimalString(day)
  }

  /** The chart series: one entry per snapshot, in order. */
  function Project(daily: seq<Snapshot>): (p: PerformanceOverTime)
    ensures |p.labels| == |p.clicks| == |p.sales| == |p.profit| == |daily|
    ensures forall i :: 0 <= i < |daily| ==>
      p.labels[i] == DayLabel(daily[i].day) &&
      p.clicks[i] == daily[i].cumulative.clicks &&
      p.sales[i] == daily[i].cumulative.sales &&
      p.profit[i] == daily[i].cumulative.profit
  {
    PerformanceOverTime(
      seq(|daily|, i requires 0 <= i < |daily| => DayLabel(daily[i].day)),
      seq(|daily|, i requires 0 <= i < |daily| => daily[i].cumulative.clicks),
      seq(|daily|, i requires 0 <= i < |daily| => daily[i].cumulative.sales),
      seq(|daily|, i requires 0 <= i < |daily| => daily[i].cumulative.profit))
  }

  /** The number of days the loop runs: `duration`, or none when it is not positive. */
  function Days(duration: int): nat
  {
    if duration > 0 then duration else 0
  }

  /** What a run returns, given the draws of every day. */
  function Simulation(productType: string, channel: string, budget: real, duration: int,
                      draws: seq<Draws>): SimulationResult
    requires duration <= |draws|
  {
    var days := DayResults(RatesFor(productType, channel), budget, draws);
    var n := Days(duration);
    var t := TotalsAfter(days, n);
    SimulationResult(t.clicks, t.impressions, t.sales, t.profit,
                     ChartsData(Project(Snapshots(days, n))))
  }

  // ---------------------------------------------------------------------------
  // The run itself

  /** Runs the campaign day by day, keeping running totals and appending a
      cumulative snapshot per day, then projects the snapshots into chart series. */
  method RunCampaignSimulation(productType: string, channel: string, budget: real,
                               duration: int, draws: seq<Draws>)
    returns (res: SimulationResult)
    requires duration <= |draws|
    requires AllInRange(draws)
    ensures res == Simulation(productType, channel, budget, duration, draws)
    ensures |res.chartsData.performanceOverTime.labels| == Days(duration)
  {
    var cpc := Cpc(channel);
    var conversionRate := ConversionRate(productType);
    var aov := Aov(productType);
    var rates := Rates(cpc, conversionRate, aov);
    ghost var days := DayResults(rates, budget, draws);

    var dailyData: seq<Snapshot> := [];
    var totalClicks, totalImpressions, totalSales, totalProfit := 0.0, 0.0, 0, 0.0;

    var day := 1;
    while day <= duration
      invariant 1 <= day <= Days(duration) + 1
      invariant dailyData == Snapshots(days, day - 1)
      invariant Totals(totalClicks, totalImpressions, totalSales, totalProfit) == TotalsAfter(days, day - 1)
    {
      var today := SimulateDay(rates, budget, draws[day - 1]);
      totalClicks := totalClicks + today.clicks;
      totalImpressions := totalImpressions + today.impressions;
      totalSales := totalSales + today.sales;
      totalProfit := totalProfit + today.profit;
      dailyData := dailyData + [Snapshot(day, Totals(totalClicks, totalImpressions, totalSales, totalProfit))];
      day := day + 1;
    }

    res := SimulationResult(totalClicks, totalImpressions, totalSales, totalProfit,
                            ChartsData(Project(dailyData)));
  }
}
