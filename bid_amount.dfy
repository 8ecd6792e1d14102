/** The bid-amount rule of the intake loops and the two deferral amounts
    of the automatic loop, with budgets, rates and percentages as reals. */
module BidAmount {
  import opened Wrappers
  import opened Jobs

  /** Python 3 `round(x)`: the nearest integer, ties to the even one. */
  function Round(x: real): int {
    var f := x.Floor;
    var d := x - f as real;
    if d < 0.5 then f
    else if d > 0.5 then f + 1
    else if f % 2 == 0 then f
    else f + 1
  }

  /** `Round` is a nearest integer: never more than one half away. */
  lemma {:induction false} RoundIsNearest(x: real)
    ensures -0.5 <= Round(x) as real - x <= 0.5
    ensures Round(x) as real - x == 0.5 || x - Round(x) as real == 0.5 ==> Round(x) % 2 == 0
  {
  }

  /** `Round` never reverses an order. */
  lemma {:induction false} RoundMonotone(x: real, y: real)
    requires x <= y
    ensures Round(x) <= Round(y)
  {
    if x.Floor < y.Floor {
      assert Round(x) <= x.Floor + 1 <= y.Floor <= Round(y);
    }
  }

  function Max(a: real, b: real): real {
    if a < b then b else a
  }

  /** `round(budget_max * bid_avg_percent)`: the share of the top of the
      budget the bot starts from. */
  function Share(budgetMax: real): real {
    Round(budgetMax * BidAvgPercent) as real
  }

  /** `round(budget_max * (bid_avg_percent / 2))`. */
  function HalfShare(budgetMax: real): real {
    Round(budgetMax * (BidAvgPercent / 2.0)) as real
  }

  /** The floor for fixed jobs: the share raised to `min_budget / rate`,
      the minimum budget expressed in the job's currency. */
  function FixedFloor(cfg: Config, budgetMax: real, rate: real): (a: real)
    requires rate != 0.0
    ensures a >= cfg.minBudget / rate && a >= Share(budgetMax)
    ensures a == cfg.minBudget / rate || a == Share(budgetMax)
  {
    var a := Share(budgetMax);
    if a < cfg.minBudget / rate then cfg.minBudget / rate else a
  }

  /** The `budget_min` raise: an amount below `budget_min` is replaced by
      the larger of the half share and `budget_min`. */
  function RaiseToBudgetMin(budgetMax: real, budgetMin: real, a: real): (r: real)
    ensures r >= budgetMin
    ensures a >= budgetMin ==> r == a
    ensures a < budgetMin ==> r == Max(HalfShare(budgetMax), budgetMin)
  {
    if a < budgetMin then Max(HalfShare(budgetMax), budgetMin) else a
  }

  /** The amount bid (and, in the semi-automatic loop, proposed for
      review). `None` stands for the exception a fixed job without an
      exchange rate, or with a zero one, raises in `float(None)` or in the
      division. */
  function Amount(cfg: Config, fixed: bool, budgetMax: real, budgetMin: real, rate: Option<real>): (r: Option<real>)
    ensures r.None? <==> fixed && (rate.None? || rate.value == 0.0)
    ensures r.Some? ==> r.value >= budgetMin
    ensures r.Some? && fixed ==> r.value >= cfg.minBudget / rate.value
  {
    if !fixed then Some(RaiseToBudgetMin(budgetMax, budgetMin, Share(budgetMax)))
    else if rate.None? || rate.value == 0.0 then None
    else Some(RaiseToBudgetMin(budgetMax, budgetMin, FixedFloor(cfg, budgetMax, rate.value)))
  }

  /** The half share of a non-negative budget is at most its full share. */
  lemma {:induction false} HalfShareBelowShare(bm: real)
    requires bm >= 0.0
    ensures HalfShare(bm) <= Share(bm)
  {
    RoundMonotone(bm * (BidAvgPercent / 2.0), bm * BidAvgPercent);
  }

  /** The `budget_min` raise keeps the order of two amounts when the larger
      one is at least the share of the larger budget. */
  lemma {:induction false} RaiseMonotone(bm: real, bm': real, budgetMin: real, a: real, a': real)
    requires 0.0 <= bm <= bm'
    requires a <= a' && a' >= Share(bm')
    ensures RaiseToBudgetMin(bm, budgetMin, a) <= RaiseToBudgetMin(bm', budgetMin, a')
  {
    HalfShareBelowShare(bm);
    RoundMonotone(bm * (BidAvgPercent / 2.0), bm' * (BidAvgPercent / 2.0));
    RoundMonotone(bm * BidAvgPercent, bm' * BidAvgPercent);
  }

  /** For non-negative budgets, a larger `budget_max` never gives a
      smaller amount. */
  lemma {:induction false} AmountMonotone(cfg: Config, fixed: bool, bm: real, bm': real, budgetMin: real, rate: Option<real>)
    requires 0.0 <= bm <= bm'
    requires Amount(cfg, fixed, bm, budgetMin, rate).Some?
    ensures Amount(cfg, fixed, bm', budgetMin, rate).Some?
    ensures Amount(cfg, fixed, bm, budgetMin, rate).value <= Amount(cfg, fixed, bm', budgetMin, rate).value
  {
    RoundMonotone(bm * BidAvgPercent, bm' * BidAvgPercent);
    if fixed {
      var r := rate.value;
      RaiseMonotone(bm, bm', budgetMin, FixedFloor(cfg, bm, r), FixedFloor(cfg, bm', r));
    } else {
      RaiseMonotone(bm, bm', budgetMin, Share(bm), Share(bm'));
    }
  }

  /** The amount a fixed job under the budget threshold is deferred with:
      the fixed floor, without the `budget_min` raise. */
  function DeferFixed(cfg: Config, budgetMax: real, rate: real): (a: real)
    requires rate != 0.0
    ensures a >= cfg.minBudget / rate
  {
    FixedFloor(cfg, budgetMax, rate)
  }

  /** The amount a non-fixed job is deferred with when only fixed jobs are
      bid on: exactly what a bid on it would have offered. */
  function DeferOnlyFixed(cfg: Config, budgetMax: real, budgetMin: real): (a: real)
    ensures a >= budgetMin
    ensures Amount(cfg, false, budgetMax, budgetMin, None) == Some(a)
  {
    RaiseToBudgetMin(budgetMax, budgetMin, Share(budgetMax))
  }

  /** A fixed job with rate 1, a 200 budget top and a 50 minimum: half of
      200 is bid. */
  lemma HalfOfBudgetMax()
    ensures Amount(Default, true, 200.0, 50.0, Some(1.0)) == Some(100.0)
  {
    assert Round(100.0) == 100;
  }

  /** Budget 25 to 40, fixed, rate 1: half of 40 is 20, the minimum budget
      raises it to 30, which already clears `budget_min`. */
  lemma MinimumBudgetFloorFirst()
    ensures Amount(Default, true, 40.0, 25.0, Some(1.0)) == Some(30.0)
  {
    assert Round(20.0) == 20;
  }

  /** A non-fixed job with budget 10 to 15: half of 15 rounds to 8 (7.5,
      ties to even), below 10, so the amount is `max(round(3.75), 10)`. */
  lemma RaisedToBudgetMin()
    ensures Amount(Default, false, 15.0, 10.0, None) == Some(10.0)
  {
    assert Round(7.5) == 8;
    assert Round(3.75) == 4;
  }
}
