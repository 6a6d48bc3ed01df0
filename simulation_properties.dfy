// Properties of the campaign simulation: of the running totals for any
// sequence of days, of the simulated days, and of the returned result.

module SimulationProperties {
  import opened PythonRound
  import opened DecimalText
  import opened SimulationLogic

  // ---------------------------------------------------------------------------
  // Properties of the running totals, for any sequence of days

  /** The list after `n` days has `n` entries; entry `i` is day `i + 1` with
      the totals after `i + 1` days. */
  lemma {:induction false} SnapshotsShape(days: seq<DayResult>, n: nat)
    requires n <= |days|
    ensures forall i :: 0 <= i < n ==> Snapshots(days, n)[i] == Snapshot(i + 1, TotalsAfter(days, i + 1))
  {
    if n > 0 {
      SnapshotsShape(days, n - 1);
    }
  }

  /** When every day brings at least one click, the cumulative clicks after
      `j` days exceed those after `i` days by at least `j - i`. */
  lemma {:induction false} ClicksGrow(days: seq<DayResult>, i: nat, j: nat)
    requires i <= j <= |days|
    requires forall k :: 0 <= k < |days| ==> days[k].clicks >= 1.0
    ensures TotalsAfter(days, j).clicks >= TotalsAfter(days, i).clicks + (j - i) as real
    decreases j
  {
    if i < j {
      ClicksGrow(days, i, j - 1);
    }
  }

  /** When every day brings at least eight impressions, cumulative impressions
      grow by at least eight a day. */
  lemma {:induction false} ImpressionsGrow(days: seq<DayResult>, i: nat, j: nat)
    requires i <= j <= |days|
    requires forall k :: 0 <= k < |days| ==> days[k].impressions >= 8.0
    ensures TotalsAfter(days, j).impressions >= TotalsAfter(days, i).impressions + 8.0 * (j - i) as real
    decreases j
  {
    if i < j {
      ImpressionsGrow(days, i, j - 1);
    }
  }

  /** When no day has negative sales, cumulative sales never go down. */
  lemma {:induction false} SalesNonDecreasing(days: seq<DayResult>, i: nat, j: nat)
    requires i <= j <= |days|
    requires forall k :: 0 <= k < |days| ==> days[k].sales >= 0
    ensures TotalsAfter(days, i).sales <= TotalsAfter(days, j).sales
    decreases j
  {
    if i < j {
      SalesNonDecreasing(days, i, j - 1);
    }
  }

  /** Each day's profit is its sales times `aov` less the fixed daily `cost`. */
  predicate ProfitIsRevenueLessCost(days: seq<DayResult>, aov: real, cost: real)
  {
    forall k :: 0 <= k < |days| ==> days[k].profit == days[k].sales as real * aov - cost
  }

  /** When each day's profit is its revenue less a fixed daily cost, the
      cumulative profit is the cumulative revenue less that cost once per day. */
  lemma {:induction false} ProfitIdentity(days: seq<DayResult>, aov: real, cost: real, n: nat)
    requires n <= |days|
    requires ProfitIsRevenueLessCost(days, aov, cost)
    ensures TotalsAfter(days, n).profit == TotalsAfter(days, n).sales as real * aov - n as real * cost
  {
    if n > 0 {
      ProfitIdentity(days, aov, cost, n - 1);
      var prev := TotalsAfter(days, n - 1);
      var today := days[n - 1];
      assert (prev.sales + today.sales) as real * aov == prev.sales as real * aov + today.sales as real * aov;
      assert n as real * cost == (n - 1) as real * cost + cost;
    }
  }

  // ---------------------------------------------------------------------------
  // Properties of the simulated days

  /** Every simulated day's profit is its revenue less the daily budget. */
  lemma DayProfits(r: Rates, budget: real, draws: seq<Draws>, days: seq<DayResult>)
    requires PositiveRates(r) && days == DayResults(r, budget, draws)
    ensures ProfitIsRevenueLessCost(days, r.aov, budget / 30.0)
  {
  }

  /** Every simulated day has at least one click and, when the draws are in
      range, at least eight impressions and no negative sales. */
  lemma DayFacts(r: Rates, budget: real, draws: seq<Draws>, days: seq<DayResult>)
    requires PositiveRates(r) && days == DayResults(r, budget, draws)
    ensures forall k :: 0 <= k < |days| ==> days[k].clicks >= 1.0
    ensures AllInRange(draws) ==> forall k :: 0 <= k < |days| ==> days[k].impressions >= 8.0
    ensures AllInRange(draws) ==> forall k :: 0 <= k < |days| ==> days[k].sales >= 0
  {
  }

  // ---------------------------------------------------------------------------
  // Properties of the returned result

  /** Every series has one entry per day, and the labels read "Day 1" to
      "Day duration" in order. */
  lemma SeriesShape(productType: string, channel: string, budget: real, duration: int,
                    draws: seq<Draws>)
    requires duration <= |draws|
    ensures var p := Simulation(productType, channel, budget, duration, draws).chartsData.performanceOverTime;
      |p.labels| == |p.clicks| == |p.sales| == |p.profit| == Days(duration) &&
      forall i :: 0 <= i < Days(duration) ==> p.labels[i] == "Day " + DecimalString(i + 1)
  {
    SnapshotsShape(DayResults(RatesFor(productType, channel), budget, draws), Days(duration));
  }

  /** Labels of different days differ. */
  lemma DayLabelInjective(m: nat, n: nat)
    requires "Day " + DecimalString(m) == "Day " + DecimalString(n)
    ensures m == n
  {
    assert ("Day " + DecimalString(m))[4..] == DecimalString(m);
    assert ("Day " + DecimalString(n))[4..] == DecimalString(n);
    DecimalStringInjective(m, n);
  }

  /** The labels are pairwise different. */
  lemma LabelsDistinct(productType: string, channel: string, budget: real, duration: int,
                       draws: seq<Draws>, i: nat, j: nat)
    requires duration <= |draws| && i < j < Days(duration)
    ensures var p := Simulation(productType, channel, budget, duration, draws).chartsData.performanceOverTime;
      p.labels[i] != p.labels[j]
  {
    SeriesShape(productType, channel, budget, duration, draws);
    var p := Simulation(productType, channel, budget, duration, draws).chartsData.performanceOverTime;
    if p.labels[i] == p.labels[j] {
      DayLabelInjective(i + 1, j + 1);
    }
  }

  /** The last entry of every series equals the corresponding returned total;
      with no days, all totals are zero. */
  lemma LastEntryIsTotal(productType: string, channel: string, budget: real, duration: int,
                         draws: seq<Draws>)
    requires duration <= |draws|
    ensures var res := Simulation(productType, channel, budget, duration, draws);
      var p := res.chartsData.performanceOverTime;
      (duration <= 0 ==> res.clicks == 0.0 && res.impressions == 0.0 && res.sales == 0 && res.profit == 0.0) &&
      (duration > 0 ==>
        p.clicks[duration - 1] == res.clicks &&
        p.sales[duration - 1] == res.sales &&
        p.profit[duration - 1] == res.profit)
  {
  }

  /** The last snapshot of the daily list also carries the total impressions. */
  lemma LastSnapshotIsTotals(days: seq<DayResult>, n: nat)
    requires 0 < n <= |days|
    ensures Snapshots(days, n)[n - 1].cumulative == TotalsAfter(days, n)
  {
  }

  /** Cumulative clicks strictly increase along the series. */
  lemma ClicksIncreasing(productType: string, channel: string, budget: real, duration: int,
                         draws: seq<Draws>, i: nat, j: nat)
    requires duration <= |draws| && i < j < Days(duration)
    ensures var p := Simulation(productType, channel, budget, duration, draws).chartsData.performanceOverTime;
      p.clicks[i] < p.clicks[j]
  {
    var r := RatesFor(productType, channel);
    var days := DayResults(r, budget, draws);
    SnapshotsShape(days, Days(duration));
    DayFacts(r, budget, draws, DayResults(r, budget, draws));
    ClicksGrow(days, i + 1, j + 1);
  }

  /** With the draws in range, cumulative sales never decrease along the series. */
  lemma SalesSeriesNonDecreasing(productType: string, channel: string, budget: real, duration: int,
                                 draws: seq<Draws>, i: nat, j: nat)
    requires duration <= |draws| && AllInRange(draws) && i <= j < Days(duration)
    ensures var p := Simulation(productType, channel, budget, duration, draws).chartsData.performanceOverTime;
      p.sales[i] <= p.sales[j]
  {
    var r := RatesFor(productType, channel);
    var days := DayResults(r, budget, draws);
    SnapshotsShape(days, Days(duration));
    DayFacts(r, budget, draws, DayResults(r, budget, draws));
    SalesNonDecreasing(days, i + 1, j + 1);
  }

  /** With the draws in range, cumulative impressions strictly increase along
      the daily list. */
  lemma ImpressionsIncreasing(r: Rates, budget: real, draws: seq<Draws>, n: nat, i: nat, j: nat)
    requires PositiveRates(r) && n <= |draws| && AllInRange(draws) && i < j < n
    ensures var daily := Snapshots(DayResults(r, budget, draws), n);
      daily[i].cumulative.impressions < daily[j].cumulative.impressions
  {
    var days := DayResults(r, budget, draws);
    SnapshotsShape(days, n);
    DayFacts(r, budget, draws, DayResults(r, budget, draws));
    ImpressionsGrow(days, i + 1, j + 1);
  }

  /** Cumulative profit can fall: with a budget of 30 a day buys one click and
      no sale, so each day loses the whole daily budget. */
  lemma ProfitCanDecrease()
    ensures var draws := [Draws(0.0, 10.0, 0.0), Draws(0.0, 10.0, 0.0)];
      var p := Simulation("e-commerce", "google", 30.0, 2, draws).chartsData.performanceOverTime;
      p.profit == [-1.0, -2.0]
  {
    var draws := [Draws(0.0, 10.0, 0.0), Draws(0.0, 10.0, 0.0)];
    var r := RatesFor("e-commerce", "google");
    var day := SimulateDay(r, 30.0, draws[0]);
    assert RoundHalfEven(0.02) == 0;
    assert day.sales == 0 && day.profit == -1.0;
    var days := DayResults(r, 30.0, draws);
    assert days == [day, day];
    SnapshotsShape(days, 2);
  }

  /** Day one with every draw at its midpoint, for 3000 euros on Google and an
      e-commerce product: 100 euros buy 200/3 clicks, 2000/3 impressions, one
      sale worth 60 euros, and a loss of 40 euros. */
  lemma FirstDayAtMidpoint()
    ensures SimulateDay(RatesFor("e-commerce", "google"), 3000.0, Draws(0.0, 10.0, 0.0))
         == DayResult(200.0 / 3.0, 2000.0 / 3.0, 1, 60.0, 100.0, -40.0)
  {
    assert RoundHalfEven(4.0 / 3.0) == 1;
  }
}
