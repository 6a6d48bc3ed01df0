# Marketing campaign simulation, modelled in Dafny

The system is a web form. It takes a product type, an advertising channel, a
budget and a duration in days, and simulates a digital marketing campaign.
This project models the simulation itself (`run_campaign_simulation`):

- **Lookups.** Three constants are resolved from fixed tables: cost per click
  by channel, and conversion rate and average order value (AOV) by product
  type. Each table has a fallback for an unknown key.
- **Daily loop.** For each day from 1 to `duration`:
  - the daily budget is one thirtieth of the budget;
  - clicks are the daily budget divided by the cost per click, times a ±10 %
    jitter, and never fewer than one;
  - impressions are 8 to 12 per click;
  - sales are clicks × conversion rate × a ±15 % jitter, rounded to an integer;
  - profit is sales × AOV less the daily budget.
- **Accumulation.** The loop adds each day's figures to running totals and
  appends a cumulative snapshot to a daily list.
- **Output.** The totals are returned. The daily list is projected into the
  "performance over time" chart series: labels, clicks, sales and profit.

Files:

- `python_round.dfy` (module `PythonRound`): Python's `round` on a float, to
  the nearest integer with ties to even.
- `decimal_text.dfy` (module `DecimalText`): the decimal text of a
  non-negative integer, as used by the `"Day {n}"` labels, and how to read it
  back.
- `simulation_logic.dfy` (module `SimulationLogic`): the tables and the per-day
  formula as functions, and the loop as the method `RunCampaignSimulation`.
  - The specification functions are `DayResults`, `TotalsAfter`, `Snapshots`,
    `Project` and `Simulation`.
  - The method is proved to return `Simulation(...)`.
- `simulation_properties.dfy` (module `SimulationProperties`): lemmas about the
  running totals of any sequence of days, about the simulated days, and about
  the returned result.

Randomness is an input. The caller supplies one `Draws` triple per day:
click noise in [-0.1, 0.1], impressions per click in [8, 12], and sales noise
in [-0.15, 0.15]. Floats are modelled as `real`.

## Model

| member | source | states |
|---|---|---|
| `PythonRound.RoundHalfEven` | simulation_logic.py:60 | the result is an integer within 1/2 of the argument, and on an exact tie it is the even one |
| `PythonRound.RoundHalfEvenUnique` | simulation_logic.py:60 | those two conditions determine the rounded value uniquely |
| `DecimalText.DecimalString` | simulation_logic.py:80 | the text of a day number is a non-empty string of decimal digits with no leading zero |
| `DecimalText.DecimalRoundTrip` | simulation_logic.py:80 | reading the digits back gives the number |
| `DecimalText.DecimalStringInjective` | simulation_logic.py:80 | different day numbers have different texts |
| `SimulationLogic.Cpc` | simulation_logic.py:10-35 | a known channel gives its table entry, any other channel gives 1.0, and the cost per click is always positive |
| `SimulationLogic.ConversionRate` | simulation_logic.py:16-38 | a known product type gives its table entry, any other gives 0.015, and the rate is always positive |
| `SimulationLogic.Aov` | simulation_logic.py:22-39 | a known product type gives its table entry, any other gives 75, and the AOV is always positive |
| `SimulationLogic.RatesFor` | simulation_logic.py:35-39 | the three resolved constants are all positive, so the division by the cost per click is always defined |
| `SimulationLogic.LookupsByCase` | simulation_logic.py:10-39 | key by key, the lookups agree with the tables written out as a case analysis, with the fallback for every other key |
| `SimulationLogic.DailyClicks` | simulation_logic.py:51-55 | a day's clicks are at least 1 and at least the raw clicks, and equal one of the two, i.e. max(1, raw), whatever the budget, cost per click or jitter |
| `SimulationLogic.DailyImpressions` | simulation_logic.py:57 | with the ratio in range, a day's impressions lie between 8 and 12 times its clicks |
| `SimulationLogic.DailySales` | simulation_logic.py:59-60 | a day's sales are an integer within 1/2 of clicks × rate × (1 + noise), and are not negative when clicks and rate are not negative and the noise is in range |
| `SimulationLogic.SimulateDay` | simulation_logic.py:51-64 | a day has at least one click, 8–12 impressions per click and non-negative sales when its draws are in range, costs budget/30 whatever the day, and its profit is sales × AOV − budget/30 |
| `SimulationLogic.Snapshots` | simulation_logic.py:71-77 | the daily list after n days has n entries |
| `SimulationLogic.Project` | simulation_logic.py:80-83 | each chart series has one entry per snapshot; entry i is the label "Day d" of snapshot i's day d and its cumulative clicks, sales and profit |
| `SimulationLogic.RunCampaignSimulation` | simulation_logic.py:3-105 | the day-by-day loop, with its running totals and growing daily list, returns exactly `Simulation(...)`, and the label series has one entry per day |
| `SimulationProperties.SnapshotsShape` | simulation_logic.py:66-77 | entry i of the daily list is day i+1 with the cumulative totals after i+1 days |
| `SimulationProperties.ClicksGrow` | simulation_logic.py:54-66 | when every day has at least one click, the cumulative clicks after j days exceed those after i ≤ j days by at least j − i |
| `SimulationProperties.ImpressionsGrow` | simulation_logic.py:57-67 | when every day has at least eight impressions, cumulative impressions grow by at least 8 per day |
| `SimulationProperties.SalesNonDecreasing` | simulation_logic.py:59-68 | when no day has negative sales, cumulative sales never go down |
| `SimulationProperties.ProfitIdentity` | simulation_logic.py:62-69 | when each day's profit is sales × AOV less a fixed cost, cumulative profit is cumulative sales × AOV less n times that cost; with `DayProfits`, simulated days meet that condition with cost budget/30 |
| `SimulationProperties.DayProfits` | simulation_logic.py:62-64 | every simulated day's profit is its sales × AOV less budget/30 |
| `SimulationProperties.DayFacts` | simulation_logic.py:54-60 | every simulated day has at least one click and, with its draws in range, at least eight impressions and no negative sales |
| `SimulationProperties.SeriesShape` | simulation_logic.py:49-83 | labels, clicks, sales and profit series each have max(duration, 0) entries, and the labels are "Day 1" … "Day duration" in order |
| `SimulationProperties.DayLabelInjective` | simulation_logic.py:80 | two day labels are equal only when their day numbers are |
| `SimulationProperties.LabelsDistinct` | simulation_logic.py:80 | no two labels are equal |
| `SimulationProperties.LastEntryIsTotal` | simulation_logic.py:66-93 | the last entry of the clicks, sales and profit series equals the returned total; with duration ≤ 0 all four totals are 0 |
| `SimulationProperties.LastSnapshotIsTotals` | simulation_logic.py:66-77 | the last snapshot of the daily list carries all four totals, impressions included |
| `SimulationProperties.ClicksIncreasing` | simulation_logic.py:55-81 | cumulative clicks strictly increase along the series, for any budget and jitter |
| `SimulationProperties.SalesSeriesNonDecreasing` | simulation_logic.py:59-82 | with the draws in range, cumulative sales never decrease along the series |
| `SimulationProperties.ImpressionsIncreasing` | simulation_logic.py:57-74 | with the draws in range, cumulative impressions strictly increase along the daily list |
| `SimulationProperties.ProfitCanDecrease` | simulation_logic.py:62-83 | cumulative profit need not be monotone: with a budget of 30 on Google for an e-commerce product, two days give profits −1 then −2 |
| `SimulationProperties.FirstDayAtMidpoint` | simulation_logic.py:51-64 | with every draw at its midpoint, day one of a 3000-euro Google e-commerce campaign has 200/3 clicks, 2000/3 impressions, 1 sale, 60 revenue, 100 cost and −40 profit |

## Design notes

- The result type holds only the performance-over-time chart, with labels,
  clicks, sales and profit. Impressions appear only as a total. There is no
  channel-comparison entry, because the simulation does not produce one.
- Any integer duration is accepted. A duration of zero or less yields empty
  series and zero totals. Any budget is accepted too, including zero or a
  negative one; such a day still gets its one click.
- Cumulative clicks and impressions strictly increase, and cumulative sales
  never decrease. Cumulative profit can fall (`ProfitCanDecrease`).

## Left out

- The web application in marketing.py: routes, form parsing with `float`/`int`,
  JSON serialisation of the chart data and template rendering. This is
  framework glue.
- The SQLite log store and the history page. These are database I/O. The
  newest-first ordering of history is done by the database.
- The four-channel sales comparison in marketing.py. It is a heuristic in the
  request handler, outside the simulation. It multiplies the total sales by
  fixed weights and truncates with `int`.
- The random generator. Each `random.uniform` draw is an input instead. The
  method's requires clause bounds the draws to the ranges the generator
  produces. No claim about their distribution is made.
- Floating point. Python floats are modelled as exact reals. IEEE-754 rounding,
  and which exact ties `round` meets in binary floating point, are not
  modelled. The tie rule itself, round half to even, is modelled.
- `ProfitIdentity` is stated for any sequence of days, and `DayProfits` shows
  that simulated days satisfy its premise. No single lemma combines the two for
  the returned result: that combination puts the whole per-day formula into
  the solver's context and is too costly to prove.
