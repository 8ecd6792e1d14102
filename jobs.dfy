/** The job snapshot the intake loops build from one search result, and
    the settings they read. */
module Jobs {
  import opened Wrappers

  /** The `data` record of one listing, reduced to the fields the loops
      decide on or pass along. Budgets and the exchange rate are `None`
      when the listing lacks them; `submitted` is `time_submitted` in
      seconds since the epoch (0 when absent). */
  datatype Job = Job(
    id: string,
    title: string,
    status: string,
    kind: string,
    seoUrl: string,
    description: string,
    rate: Option<real>,
    budgetMin: Option<real>,
    budgetMax: Option<real>,
    submitted: int)

  /** `str(type) == "fixed"`. */
  predicate IsFixed(job: Job) {
    job.kind == "fixed"
  }

  /** The settings of `config.py` that the decisions read. */
  datatype Config = Config(
    lookBackHours: int,
    minBudget: real,
    onlyFixed: bool,
    bidPeriod: int)

  /** `look_back_hours = 24`, `min_budget = 30`, `only_fixed = True`,
      `bid_period = 3`. */
  const Default: Config := Config(24, 30.0, true, 3)

  /** `bid_avg_percent = 0.50`: the share of `budget_max` bid. */
  const BidAvgPercent: real := 0.5
}
