/** The intake loops of `freelancer_service.py`: what one polled job does
    to the stores, which alerts it sends and whether a bid goes out, for
    the automatic loop (`auto_function`) and the semi-automatic one
    (`semi_auto_function`), plus the semi-automatic follow-up pass. The
    clock, the AI replies, the marketplace's answers and the alert
    deliveries are inputs; alerts and bids are recorded as effects. */
module FreelancerService {
  import opened Wrappers
  import opened Jobs
  import opened BidAmount
  import KeyedList
  import Utils
  import Database
  import LookupUtils

  /** The alerts a step sends, reduced to what identifies them. */
  datatype Notice =
    | Review(id: string, amount: real)                      // the semi-auto review alert with an amount
    | GenerationFailed(title: string, id: string)           // "gen_proposal", carrying the job id
    | ProposalSent(title: string, proposal: string)         // "proposal"
    | NdaRequired(title: string, amount: real)              // "nda"
    | Throttled(message: string)                            // "error", bidding too fast
    | BidFailed(id: string, amount: real, message: string)  // "error", any other refusal

  datatype Bid = Bid(
    projectId: string,
    bidder: int,
    amount: real,
    period: int,
    milestonePercentage: int,
    description: string)

  datatype Effect =
    | AddProject(id: string, job: Job, amount: real)   // `add_project`
    | StoreKey(id: string)                             // `store_project_keys`
    | Notify(notice: Notice)
    | PlaceBid(bid: Bid)                               // `place_project_bid` is called

  /** How the marketplace answers a bid. */
  datatype BidReply = Placed | Rejected(message: string)

  datatype BidError = OutOfBids | AlreadyBid | NdaUnsigned | TooFast | OtherError

  const OutOfBidsMessage: string := "You have used all of your bids."
  const AlreadyBidMessage: string := "You have already bid on that project."
  const NdaMessage: string := "You must sign the NDA before you can bid on this project."
  const TooFastMessage: string :=
    "You appear to be bidding too fast. Please take the time to write a quality bid. Improve your trust score by getting Verified by Freelancer."

  /** The exact-text tests the bid-refusal handler runs, in order. */
  function Classify(message: string): (e: BidError)
    ensures e == OtherError <==>
      message != OutOfBidsMessage && message != AlreadyBidMessage && message != NdaMessage && message != TooFastMessage
  {
    if message == OutOfBidsMessage then OutOfBids
    else if message == AlreadyBidMessage then AlreadyBid
    else if message == NdaMessage then NdaUnsigned
    else if message == TooFastMessage then TooFast
    else OtherError
  }

  /** `Continue` goes on to the next job; `Stop` is the `break` taken when
      a sleep is interrupted by shutdown; `Abort` is the exception caught
      by the loop-wide handler, which sends a review alert with amount 0
      and abandons the rest of the batch. */
  datatype Control = Continue | Stop | Abort

  datatype Step = Step(effects: seq<Effect>, control: Control)

  /** The filter chain both loops apply to a job not seen before. */
  datatype Screening = TooOld | Inactive | NoBudget | Fresh

  /** `now - time_submitted >= timedelta(hours=look_back_hours)`, in seconds. */
  predicate IsTooOld(cfg: Config, job: Job, now: real) {
    now - job.submitted as real >= (cfg.lookBackHours * 3600) as real
  }

  /** Age first, then the status, then the presence of both budget ends. */
  function Screen(cfg: Config, job: Job, now: real): (s: Screening)
    ensures s == TooOld <==> IsTooOld(cfg, job, now)
    ensures s == Inactive <==> !IsTooOld(cfg, job, now) && job.status != "active"
    ensures s == NoBudget <==> !IsTooOld(cfg, job, now) && job.status == "active" && (job.budgetMax.None? || job.budgetMin.None?)
    ensures s == Fresh ==> job.budgetMax.Some? && job.budgetMin.Some?
  {
    if IsTooOld(cfg, job, now) then TooOld
    else if job.status != "active" then Inactive
    else if job.budgetMax.None? || job.budgetMin.None? then NoBudget
    else Fresh
  }

  /** The exception path: the loop-wide handler alerts with amount 0. */
  function Crash(job: Job): Step {
    Step([Notify(Review(job.id, 0.0))], Abort)
  }

  /** A job the automatic loop sets aside for review with `amount`. */
  function Defer(job: Job, amount: real): Step {
    Step([Notify(Review(job.id, amount)), AddProject(job.id, job, amount)], Continue)
  }

  /** What the automatic loop learns from outside the stores while handling
      one job: the clock at the age check, the language and proposal
      answers of the AI service (`None` for `False`), whether the sleep
      before the bid was cut short by shutdown, the marketplace's answer to
      the bid, and whether the back-off sleep after a failure was cut
      short. */
  datatype AutoInputs = AutoInputs(
    now: real,
    lang: Option<string>,
    proposal: Option<string>,
    preBidInterrupted: bool,
    reply: BidReply,
    backoffInterrupted: bool)

  /** The handling of a bid once it is sent. */
  function BidOutcome(job: Job, bid: Bid, reply: BidReply, backoffInterrupted: bool): (s: Step)
    ensures s.effects != [] && s.effects[0] == PlaceBid(bid)
    ensures s.control != Abort && (s.control == Stop ==> backoffInterrupted)
    ensures reply == Placed ==> StoreKey(job.id) in s.effects
  {
    var resume := if backoffInterrupted then Stop else Continue;
    match reply
    case Placed =>
      Step([PlaceBid(bid), StoreKey(job.id), Notify(ProposalSent(job.title, bid.description))], Continue)
    case Rejected(message) =>
      match Classify(message)
      case OutOfBids => Step([PlaceBid(bid)], resume)
      case AlreadyBid => Step([PlaceBid(bid), StoreKey(job.id)], Continue)
      case NdaUnsigned => Step([PlaceBid(bid), Notify(NdaRequired(job.title, bid.amount)), StoreKey(job.id)], Continue)
      case TooFast => Step([PlaceBid(bid), Notify(Throttled(message))], resume)
      case OtherError => Step([PlaceBid(bid), Notify(BidFailed(job.id, bid.amount, message)), StoreKey(job.id)], Continue)
  }

  /** One pass of the automatic loop's body over one job. `seen` is the
      test `project_id_exists(id) or get_project(id)`; `keyedAtBid` is
      `project_id_exists(id)` asked again just before the bid. */
  function AutoStep(cfg: Config, bidder: int, job: Job, seen: bool, keyedAtBid: bool, ins: AutoInputs): (s: Step)
    ensures s.control == Abort ==>
      && !seen && IsFixed(job) && (job.rate.None? || job.rate.value == 0.0)
      && s.effects == [Notify(Review(job.id, 0.0))]
    ensures s.control == Stop ==> ins.preBidInterrupted || ins.backoffInterrupted
  {
    if seen then Step([], Continue)
    else
      match Screen(cfg, job, ins.now)
      case TooOld => Step([AddProject(job.id, job, 0.0)], Continue)
      case Inactive => Step([AddProject(job.id, job, 0.0)], Continue)
      case NoBudget => Step([Notify(Review(job.id, 0.0)), AddProject(job.id, job, 0.0)], Continue)
      case Fresh =>
        var bm, bmin := job.budgetMax.value, job.budgetMin.value;
        if IsFixed(job) && job.rate.None? then Crash(job)
        else if IsFixed(job) && bm * job.rate.value < cfg.minBudget then
          if job.rate.value == 0.0 then Crash(job)
          else Defer(job, DeferFixed(cfg, bm, job.rate.value))
        else if !IsFixed(job) && cfg.onlyFixed then Defer(job, DeferOnlyFixed(cfg, bm, bmin))
        else if ins.lang.None? || ins.proposal.None? then
          Step([Notify(GenerationFailed(job.title, job.id))], if ins.backoffInterrupted then Stop else Continue)
        else
          match Amount(cfg, IsFixed(job), bm, bmin, job.rate)
          case None => Crash(job)
          case Some(amount) =>
            if ins.preBidInterrupted then Step([], Stop)
            else if keyedAtBid then Step([], Continue)
            else
              var bid := Bid(job.id, bidder, amount, cfg.bidPeriod, 100, ins.proposal.value);
              BidOutcome(job, bid, ins.reply, ins.backoffInterrupted)
  }

  /** What the semi-automatic loop learns from outside: the clock at the
      age check and whether the review alert was delivered. */
  datatype SemiInputs = SemiInputs(now: real, delivered: bool)

  /** One pass of the semi-automatic loop's body over one job. */
  function SemiStep(cfg: Config, job: Job, seen: bool, ins: SemiInputs): (s: Step)
    ensures s.control != Stop
    ensures s.control == Abort ==>
      && !seen && IsFixed(job) && (job.rate.None? || job.rate.value == 0.0)
      && s.effects == [Notify(Review(job.id, 0.0))]
    ensures forall e :: e in s.effects ==> e.Notify? || e == StoreKey(job.id) || (e.AddProject? && e.id == job.id)
  {
    if seen then Step([], Continue)
    else
      match Screen(cfg, job, ins.now)
      case TooOld => Step([StoreKey(job.id)], Continue)
      case Inactive => Step([StoreKey(job.id)], Continue)
      case NoBudget => Step([Notify(Review(job.id, 0.0)), StoreKey(job.id)], Continue)
      case Fresh =>
        match Amount(cfg, IsFixed(job), job.budgetMax.value, job.budgetMin.value, job.rate)
        case None => Crash(job)
        case Some(amount) =>
          var added := if ins.delivered then [AddProject(job.id, job, amount)] else [];
          Step([Notify(Review(job.id, amount))] + added, Continue)
  }

  // ---------------------------------------------------------------------
  // Properties of one step

  /** A job already in the dedup table or in the review list is skipped
      by both loops with no write, alert or bid. */
  lemma {:induction false} SeenJobsUntouched(cfg: Config, bidder: int, job: Job, keyedAtBid: bool, ai: AutoInputs, si: SemiInputs)
    ensures AutoStep(cfg, bidder, job, true, keyedAtBid, ai) == Step([], Continue)
    ensures SemiStep(cfg, job, true, si) == Step([], Continue)
  {
  }

  /** A new job the filters reject is put on the review list with amount 0
      by the automatic loop, and keyed in the dedup table by the
      semi-automatic one; only a missing budget is alerted, before the
      write. */
  lemma {:induction false} FilteredJobs(cfg: Config, bidder: int, job: Job, keyedAtBid: bool, ai: AutoInputs, si: SemiInputs)
    requires Screen(cfg, job, ai.now) != Fresh && Screen(cfg, job, si.now) != Fresh
    ensures var s := AutoStep(cfg, bidder, job, false, keyedAtBid, ai);
      && s.control == Continue
      && s.effects[|s.effects| - 1] == AddProject(job.id, job, 0.0)
      && (Screen(cfg, job, ai.now) == NoBudget <==> |s.effects| == 2)
      && (|s.effects| == 2 ==> s.effects[0] == Notify(Review(job.id, 0.0)))
    ensures var s := SemiStep(cfg, job, false, si);
      && s.control == Continue
      && s.effects[|s.effects| - 1] == StoreKey(job.id)
      && (Screen(cfg, job, si.now) == NoBudget <==> |s.effects| == 2)
      && (|s.effects| == 2 ==> s.effects[0] == Notify(Review(job.id, 0.0)))
  {
  }

  /** In the automatic loop a fixed job whose budget top, converted with
      the rate, is under `min_budget` is set aside with the fixed floor
      (not raised to `budget_min`), and a non-fixed job, when only fixed
      jobs are bid on, with the amount a bid would have offered; neither
      path bids. */
  lemma {:induction false} DeferralsPlaceNoBid(cfg: Config, bidder: int, job: Job, keyedAtBid: bool, ins: AutoInputs)
    requires Screen(cfg, job, ins.now) == Fresh
    ensures var s := AutoStep(cfg, bidder, job, false, keyedAtBid, ins);
      var bm, bmin := job.budgetMax.value, job.budgetMin.value;
      && (IsFixed(job) && job.rate.Some? && job.rate.value != 0.0 && bm * job.rate.value < cfg.minBudget ==>
            && s == Defer(job, DeferFixed(cfg, bm, job.rate.value))
            && DeferFixed(cfg, bm, job.rate.value) >= cfg.minBudget / job.rate.value)
      && (!IsFixed(job) && cfg.onlyFixed ==>
            && s == Defer(job, DeferOnlyFixed(cfg, bm, bmin))
            && Amount(cfg, false, bm, bmin, job.rate) == Some(DeferOnlyFixed(cfg, bm, bmin)))
      && (forall b :: PlaceBid(b) in s.effects ==> !(IsFixed(job) && bm * job.rate.value < cfg.minBudget) && (IsFixed(job) || !cfg.onlyFixed))
  {
  }

  /** When the language or the proposal cannot be generated the job is
      written to no store, and the alert carries the job's id. */
  lemma {:induction false} GenerationFailureStoresNothing(cfg: Config, bidder: int, job: Job, keyedAtBid: bool, ins: AutoInputs)
    requires Screen(cfg, job, ins.now) == Fresh
    requires IsFixed(job) ==> job.rate.Some? && job.rate.value != 0.0 && job.budgetMax.value * job.rate.value >= cfg.minBudget
    requires !IsFixed(job) ==> !cfg.onlyFixed
    requires ins.lang.None? || ins.proposal.None?
    ensures var s := AutoStep(cfg, bidder, job, false, keyedAtBid, ins);
      && s.effects == [Notify(GenerationFailed(job.title, job.id))]
      && (s.control == Stop <==> ins.backoffInterrupted)
      && forall e :: e in s.effects ==> !e.AddProject? && !e.StoreKey?
  {
  }

  /** A bid goes out only for a job not seen and still not keyed just
      before sending; it offers the bid amount, with its bounds, and the
      generated proposal. */
  lemma {:induction false} BidsOnlyWhenAbsent(cfg: Config, bidder: int, job: Job, seen: bool, keyedAtBid: bool, ins: AutoInputs, b: Bid)
    requires PlaceBid(b) in AutoStep(cfg, bidder, job, seen, keyedAtBid, ins).effects
    ensures !seen && !keyedAtBid && !ins.preBidInterrupted
    ensures Screen(cfg, job, ins.now) == Fresh && ins.lang.Some? && ins.proposal.Some?
    ensures b == Bid(job.id, bidder, b.amount, cfg.bidPeriod, 100, ins.proposal.value)
    ensures Amount(cfg, IsFixed(job), job.budgetMax.value, job.budgetMin.value, job.rate) == Some(b.amount)
    ensures b.amount >= job.budgetMin.value
    ensures IsFixed(job) ==> b.amount >= cfg.minBudget / job.rate.value
  {
  }

  /** A placed bid is keyed in the dedup table before the "proposal" alert
      goes out. */
  lemma {:induction false} StoredBeforeProposalAlert(cfg: Config, bidder: int, job: Job, seen: bool, keyedAtBid: bool, ins: AutoInputs, b: Bid)
    requires PlaceBid(b) in AutoStep(cfg, bidder, job, seen, keyedAtBid, ins).effects
    requires ins.reply == Placed
    ensures AutoStep(cfg, bidder, job, seen, keyedAtBid, ins)
      == Step([PlaceBid(b), StoreKey(job.id), Notify(ProposalSent(job.title, ins.proposal.value))], Continue)
  {
    BidsOnlyWhenAbsent(cfg, bidder, job, seen, keyedAtBid, ins, b);
  }

  /** A refused bid keys the job exactly when the refusal is "already bid",
      the NDA, or any unrecognised message, and alerts exactly for the NDA,
      bidding too fast, and unrecognised messages. Only running out of bids
      and bidding too fast can end the loop, and only when their back-off
      sleep is interrupted. */
  lemma {:induction false} RefusalOutcomes(cfg: Config, bidder: int, job: Job, seen: bool, keyedAtBid: bool, ins: AutoInputs, b: Bid, message: string)
    requires PlaceBid(b) in AutoStep(cfg, bidder, job, seen, keyedAtBid, ins).effects
    requires ins.reply == Rejected(message)
    ensures var s := AutoStep(cfg, bidder, job, seen, keyedAtBid, ins);
      var e := Classify(message);
      && s.effects[0] == PlaceBid(b)
      && (StoreKey(job.id) in s.effects <==> e in {AlreadyBid, NdaUnsigned, OtherError})
      && ((exists n :: Notify(n) in s.effects) <==> e in {NdaUnsigned, TooFast, OtherError})
      && (s.control == Stop <==> e in {OutOfBids, TooFast} && ins.backoffInterrupted)
      && s.control != Abort
  {
    BidsOnlyWhenAbsent(cfg, bidder, job, seen, keyedAtBid, ins, b);
    var s := AutoStep(cfg, bidder, job, seen, keyedAtBid, ins);
    match Classify(message)
    case OutOfBids =>
    case AlreadyBid =>
    case NdaUnsigned =>
      assert Notify(NdaRequired(job.title, b.amount)) in s.effects;
    case TooFast =>
      assert Notify(Throttled(message)) in s.effects;
    case OtherError =>
      assert Notify(BidFailed(job.id, b.amount, message)) in s.effects;
  }

  /** The handler tells the four known refusals apart, and sends every
      other message to the generic case. */
  lemma {:induction false} RefusalTexts(message: string)
    ensures Classify(OutOfBidsMessage) == OutOfBids
    ensures Classify(AlreadyBidMessage) == AlreadyBid
    ensures Classify(NdaMessage) == NdaUnsigned
    ensures Classify(TooFastMessage) == TooFast
    ensures message !in {OutOfBidsMessage, AlreadyBidMessage, NdaMessage, TooFastMessage} ==> Classify(message) == OtherError
  {
    assert |OutOfBidsMessage| == 31 && |AlreadyBidMessage| == 37 && |NdaMessage| == 57;
    assert |TooFastMessage| > 57;
  }

  /** The semi-automatic loop puts a job on the review list exactly when it
      passed the filters, its amount could be computed and its review alert
      was delivered; the alert carries that amount. */
  lemma {:induction false} SemiDeliveredGate(cfg: Config, job: Job, seen: bool, ins: SemiInputs)
    ensures var s := SemiStep(cfg, job, seen, ins);
      && ((exists a :: AddProject(job.id, job, a) in s.effects) <==>
            && !seen && Screen(cfg, job, ins.now) == Fresh && ins.delivered
            && Amount(cfg, IsFixed(job), job.budgetMax.value, job.budgetMin.value, job.rate).Some?)
      && forall a :: AddProject(job.id, job, a) in s.effects ==>
            && s.effects == [Notify(Review(job.id, a)), AddProject(job.id, job, a)]
            && Amount(cfg, IsFixed(job), job.budgetMax.value, job.budgetMin.value, job.rate) == Some(a)
  {
    var s := SemiStep(cfg, job, seen, ins);
    if !seen && Screen(cfg, job, ins.now) == Fresh && ins.delivered {
      var am := Amount(cfg, IsFixed(job), job.budgetMax.value, job.budgetMin.value, job.rate);
      if am.Some? {
        assert AddProject(job.id, job, am.value) in s.effects;
      }
    }
  }

  // ---------------------------------------------------------------------
  // The stores and a batch of jobs

  /** The dedup table and the review list, as the loops see them. */
  datatype Stores = Stores(ids: set<string>, records: seq<Utils.Project>)

  /** `project_id_exists(id) or get_project(id)`. */
  predicate Seen(st: Stores, id: string) {
    id in st.ids || KeyedList.Find(st.records, Utils.ProjectId, id).Some?
  }

  function Apply(st: Stores, e: Effect): Stores {
    match e
    case StoreKey(id) => st.(ids := st.ids + {id})
    case AddProject(id, job, amount) =>
      st.(records := KeyedList.Insert(st.records, Utils.ProjectId, Utils.Project(id, job, amount)))
    case _ => st
  }

  function ApplyAll(st: Stores, effects: seq<Effect>): Stores
    decreases |effects|
  {
    if effects == [] then st else ApplyAll(Apply(st, effects[0]), effects[1..])
  }

  /** Effects only ever add: no key is dropped and the review list only
      grows at its end. */
  lemma {:induction false} ApplyAllGrows(st: Stores, effects: seq<Effect>)
    ensures st.ids <= ApplyAll(st, effects).ids
    ensures st.records <= ApplyAll(st, effects).records
    decreases |effects|
  {
    if effects != [] {
      ApplyAllGrows(Apply(st, effects[0]), effects[1..]);
    }
  }

  /** Every key stored by the effects ends up in the dedup table. */
  lemma {:induction false} ApplyAllStores(st: Stores, effects: seq<Effect>, id: string)
    requires StoreKey(id) in effects
    ensures id in ApplyAll(st, effects).ids
    decreases |effects|
  {
    if effects[0] == StoreKey(id) {
      ApplyAllGrows(Apply(st, effects[0]), effects[1..]);
    } else {
      ApplyAllStores(Apply(st, effects[0]), effects[1..], id);
    }
  }

  /** Once seen, always seen: growing stores keep an id found. */
  lemma {:induction false} SeenStays(st: Stores, st': Stores, id: string)
    requires st.ids <= st'.ids && st.records <= st'.records
    requires Seen(st, id)
    ensures Seen(st', id)
  {
    if id !in st.ids {
      var i :| 0 <= i < |st.records| && Utils.ProjectId(st.records[i]) == id;
      assert st'.records[i] == st.records[i];
    }
  }

  datatype Batch = Batch(effects: seq<Effect>, control: Control, after: Stores)

  /** A loop's `for` over the first `n` jobs of a search result, last
      first: `step(st, k)` is what job `k` does when it finds the stores
      `st`, and each job finds the stores its predecessors left. The loop
      ends early at the first step that does not continue. */
  function RunSteps(step: (Stores, nat) -> Step, st: Stores, n: nat): Batch
    decreases n
  {
    if n == 0 then Batch([], Continue, st)
    else
      var s := step(st, n - 1);
      var st' := ApplyAll(st, s.effects);
      if s.control != Continue then Batch(s.effects, s.control, st')
      else
        var rest := RunSteps(step, st', n - 1);
        Batch(s.effects + rest.effects, rest.control, rest.after)
  }

  /** One turn of a loop: the first job's step, then, when it lets the
      loop go on, the rest of the batch from the stores it left. */
  lemma {:induction false} RunStepsTurn(step: (Stores, nat) -> Step, st: Stores, n: nat, s: Step, st': Stores)
    requires n > 0 && s == step(st, n - 1) && st' == ApplyAll(st, s.effects)
    ensures s.control != Continue ==> RunSteps(step, st, n) == Batch(s.effects, s.control, st')
    ensures s.control == Continue ==>
      var rest := RunSteps(step, st', n - 1);
      RunSteps(step, st, n) == Batch(s.effects + rest.effects, rest.control, rest.after)
  {
  }

  /** A batch only adds to the stores. */
  lemma {:induction false} RunStepsGrows(step: (Stores, nat) -> Step, st: Stores, n: nat)
    ensures var r := RunSteps(step, st, n);
      st.ids <= r.after.ids && st.records <= r.after.records
    decreases n
  {
    if n > 0 {
      var s := step(st, n - 1);
      ApplyAllGrows(st, s.effects);
      RunStepsGrows(step, ApplyAll(st, s.effects), n - 1);
    }
  }

  /** The automatic loop's step for job `k`, with `seen` and the check
      before the bid both read from the stores the job finds. */
  function AutoStepper(cfg: Config, bidder: int, jobs: seq<Job>, ins: seq<AutoInputs>): (Stores, nat) -> Step {
    (st: Stores, k: nat) =>
      if k < |jobs| && k < |ins| then AutoStep(cfg, bidder, jobs[k], Seen(st, jobs[k].id), jobs[k].id in st.ids, ins[k])
      else Step([], Continue)
  }

  /** The automatic loop over one search result. */
  function AutoRun(cfg: Config, bidder: int, st: Stores, jobs: seq<Job>, ins: seq<AutoInputs>): Batch {
    RunSteps(AutoStepper(cfg, bidder, jobs, ins), st, |jobs|)
  }

  /** No bid is ever sent for a job the stores already hold. */
  lemma {:induction false} NoBidOnSeenJobFrom(cfg: Config, bidder: int, st: Stores, jobs: seq<Job>, ins: seq<AutoInputs>, n: nat, id: string)
    requires n <= |jobs| && |ins| == |jobs|
    requires Seen(st, id)
    ensures forall b :: PlaceBid(b) in RunSteps(AutoStepper(cfg, bidder, jobs, ins), st, n).effects ==> b.projectId != id
    decreases n
  {
    if n > 0 {
      var job := jobs[n - 1];
      var s := AutoStepper(cfg, bidder, jobs, ins)(st, n - 1);
      assert s == AutoStep(cfg, bidder, job, Seen(st, job.id), job.id in st.ids, ins[n - 1]);
      forall b | PlaceBid(b) in s.effects
        ensures b.projectId != id
      {
        BidsOnlyWhenAbsent(cfg, bidder, job, Seen(st, job.id), job.id in st.ids, ins[n - 1], b);
      }
      if s.control == Continue {
        var st' := ApplyAll(st, s.effects);
        ApplyAllGrows(st, s.effects);
        SeenStays(st, st', id);
        NoBidOnSeenJobFrom(cfg, bidder, st', jobs, ins, n - 1, id);
      }
    }
  }

  /** A job the stores already hold gets no bid from a batch; since a
      placed bid keys its job and batches only add to the stores, a job
      is never bid on again after a bid on it was placed, in the rest of
      its batch or in any later one. */
  lemma {:induction false} NoBidOnSeenJob(cfg: Config, bidder: int, st: Stores, jobs: seq<Job>, ins: seq<AutoInputs>, id: string)
    requires |ins| == |jobs| && Seen(st, id)
    ensures forall b :: PlaceBid(b) in AutoRun(cfg, bidder, st, jobs, ins).effects ==> b.projectId != id
    ensures Seen(AutoRun(cfg, bidder, st, jobs, ins).after, id)
  {
    NoBidOnSeenJobFrom(cfg, bidder, st, jobs, ins, |jobs|, id);
    RunStepsGrows(AutoStepper(cfg, bidder, jobs, ins), st, |jobs|);
    SeenStays(st, AutoRun(cfg, bidder, st, jobs, ins).after, id);
  }

  /** A successful bid keys its job, so it is the only bid that job gets
      from the rest of the batch. */
  lemma {:induction false} PlacedBidKeysJob(cfg: Config, bidder: int, st: Stores, job: Job, ins: AutoInputs, b: Bid)
    requires ins.reply == Placed
    requires PlaceBid(b) in AutoStep(cfg, bidder, job, Seen(st, job.id), job.id in st.ids, ins).effects
    ensures var s := AutoStep(cfg, bidder, job, Seen(st, job.id), job.id in st.ids, ins);
      job.id in ApplyAll(st, s.effects).ids && Seen(ApplyAll(st, s.effects), job.id)
  {
    var s := AutoStep(cfg, bidder, job, Seen(st, job.id), job.id in st.ids, ins);
    StoredBeforeProposalAlert(cfg, bidder, job, Seen(st, job.id), job.id in st.ids, ins, b);
    ApplyAllStores(st, s.effects, job.id);
  }

  /** The semi-automatic loop's step for job `k`. */
  function SemiStepper(cfg: Config, jobs: seq<Job>, ins: seq<SemiInputs>): (Stores, nat) -> Step {
    (st: Stores, k: nat) =>
      if k < |jobs| && k < |ins| then SemiStep(cfg, jobs[k], Seen(st, jobs[k].id), ins[k])
      else Step([], Continue)
  }

  /** The semi-automatic loop over one search result. */
  function SemiRun(cfg: Config, st: Stores, jobs: seq<Job>, ins: seq<SemiInputs>): Batch {
    RunSteps(SemiStepper(cfg, jobs, ins), st, |jobs|)
  }

  /** The semi-automatic loop never bids. */
  lemma {:induction false} SemiRunNeverBidsFrom(cfg: Config, st: Stores, jobs: seq<Job>, ins: seq<SemiInputs>, n: nat)
    requires n <= |jobs| && |ins| == |jobs|
    ensures forall e :: e in RunSteps(SemiStepper(cfg, jobs, ins), st, n).effects ==> !e.PlaceBid?
    decreases n
  {
    if n > 0 {
      var s := SemiStepper(cfg, jobs, ins)(st, n - 1);
      assert s == SemiStep(cfg, jobs[n - 1], Seen(st, jobs[n - 1].id), ins[n - 1]);
      SemiRunNeverBidsFrom(cfg, ApplyAll(st, s.effects), jobs, ins, n - 1);
    }
  }

  lemma {:induction false} SemiRunNeverBids(cfg: Config, st: Stores, jobs: seq<Job>, ins: seq<SemiInputs>)
    requires |ins| == |jobs|
    ensures forall e :: e in SemiRun(cfg, st, jobs, ins).effects ==> !e.PlaceBid?
  {
    SemiRunNeverBidsFrom(cfg, st, jobs, ins, |jobs|);
  }

  /** Carries out the store writes among `effects` on the two stores. */
  method Perform(dedup: Database.DedupStore, projects: Utils.ProjectStore, effects: seq<Effect>)
    modifies dedup, projects
    ensures Stores(dedup.ids, projects.records) == ApplyAll(Stores(old(dedup.ids), old(projects.records)), effects)
    ensures old(projects.Valid()) ==> projects.Valid()
  {
    var k := 0;
    while k < |effects|
      invariant 0 <= k <= |effects|
      invariant ApplyAll(Stores(dedup.ids, projects.records), effects[k..])
        == ApplyAll(Stores(old(dedup.ids), old(projects.records)), effects)
      invariant old(projects.Valid()) ==> projects.Valid()
    {
      assert effects[k..][1..] == effects[k + 1..];
      match effects[k] {
        case StoreKey(id) =>
          dedup.Store(id);
        case AddProject(id, job, amount) =>
          var _ := projects.Add(id, job, amount);
        case Notify(_) =>
        case PlaceBid(_) =>
      }
      k := k + 1;
    }
  }

  /** One job's turn: its step, computed from the stores as they stand,
      with the step's writes carried out. */
  method Turn(dedup: Database.DedupStore, projects: Utils.ProjectStore, step: (Stores, nat) -> Step, k: nat)
    returns (s: Step)
    modifies dedup, projects
    ensures s == step(Stores(old(dedup.ids), old(projects.records)), k)
    ensures Stores(dedup.ids, projects.records) == ApplyAll(Stores(old(dedup.ids), old(projects.records)), s.effects)
    ensures old(projects.Valid()) ==> projects.Valid()
  {
    s := step(Stores(dedup.ids, projects.records), k);
    Perform(dedup, projects, s.effects);
  }

  /** The effects `done` already carried out, followed by the batch `b`. */
  function After(done: seq<Effect>, b: Batch): Batch {
    Batch(done + b.effects, b.control, b.after)
  }

  lemma {:induction false} AfterTurn(done: seq<Effect>, effects: seq<Effect>, rest: Batch)
    ensures After(done, Batch(effects + rest.effects, rest.control, rest.after)) == After(done + effects, rest)
  {
    assert done + (effects + rest.effects) == (done + effects) + rest.effects;
  }

  /** A loop over one search result: jobs are taken last first, each
      sees the stores as they stand, and its writes land before the next
      job is looked at. */
  method RunBatch(dedup: Database.DedupStore, projects: Utils.ProjectStore, step: (Stores, nat) -> Step, n: nat)
    returns (effects: seq<Effect>, control: Control)
    modifies dedup, projects
    ensures RunSteps(step, Stores(old(dedup.ids), old(projects.records)), n)
      == Batch(effects, control, Stores(dedup.ids, projects.records))
    ensures old(projects.Valid()) ==> projects.Valid()
  {
    ghost var whole := RunSteps(step, Stores(dedup.ids, projects.records), n);
    effects, control := [], Continue;
    assert After([], whole) == whole;
    var i := n;
    while i > 0
      invariant 0 <= i <= n
      invariant old(projects.Valid()) ==> projects.Valid()
      invariant whole == After(effects, RunSteps(step, Stores(dedup.ids, projects.records), i))
      decreases i
    {
      ghost var st := Stores(dedup.ids, projects.records);
      var s := Turn(dedup, projects, step, i - 1);
      RunStepsTurn(step, st, i, s, Stores(dedup.ids, projects.records));
      AfterTurn(effects, s.effects, RunSteps(step, Stores(dedup.ids, projects.records), i - 1));
      effects := effects + s.effects;
      if s.control != Continue {
        control := s.control;
        return;
      }
      i := i - 1;
    }
  }

  /** The automatic loop over one search result (`auto_function`'s `for`). */
  method AutoBatch(cfg: Config, bidder: int, dedup: Database.DedupStore, projects: Utils.ProjectStore,
                   jobs: seq<Job>, ins: seq<AutoInputs>)
    returns (effects: seq<Effect>, control: Control)
    modifies dedup, projects
    ensures AutoRun(cfg, bidder, Stores(old(dedup.ids), old(projects.records)), jobs, ins)
      == Batch(effects, control, Stores(dedup.ids, projects.records))
    ensures old(projects.Valid()) ==> projects.Valid()
  {
    effects, control := RunBatch(dedup, projects, AutoStepper(cfg, bidder, jobs, ins), |jobs|);
  }

  /** The semi-automatic loop over one search result. */
  method SemiBatch(cfg: Config, dedup: Database.DedupStore, projects: Utils.ProjectStore,
                   jobs: seq<Job>, ins: seq<SemiInputs>)
    returns (effects: seq<Effect>, control: Control)
    modifies dedup, projects
    ensures SemiRun(cfg, Stores(old(dedup.ids), old(projects.records)), jobs, ins)
      == Batch(effects, control, Stores(dedup.ids, projects.records))
    ensures old(projects.Valid()) ==> projects.Valid()
  {
    effects, control := RunBatch(dedup, projects, SemiStepper(cfg, jobs, ins), |jobs|);
  }

  // ---------------------------------------------------------------------
  // The follow-up pass of the semi-automatic loop

  /** A follow-up alert sent for a job, and whether it was delivered. */
  datatype Alert = Alert(id: string, delivered: bool)

  datatype FollowUpResult = FollowUpResult(alerts: seq<Alert>, entries: seq<LookupUtils.Entry>)

  /** The ids of the delivered alerts, in order. */
  function Delivered(alerts: seq<Alert>): seq<string> {
    if alerts == [] then []
    else (if alerts[0].delivered then [alerts[0].id] else []) + Delivered(alerts[1..])
  }

  /** One follow-up entry per id, in order. */
  function Entries(ids: seq<string>): seq<LookupUtils.Entry> {
    if ids == [] then [] else [LookupUtils.Entry(ids[0])] + Entries(ids[1..])
  }

  /** The follow-up `for` over the first `n` returned jobs, last first:
      a job with a follow-up entry is skipped; otherwise its alert is sent
      and, when delivered, the job gets an entry. */
  function FollowUpRun(entries: seq<LookupUtils.Entry>, ids: seq<string>, delivered: seq<bool>, n: nat): FollowUpResult
    requires n <= |ids| && |delivered| == |ids|
    decreases n
  {
    if n == 0 then FollowUpResult([], entries)
    else
      var id := ids[n - 1];
      if KeyedList.HasKey(entries, LookupUtils.EntryId, id) then FollowUpRun(entries, ids, delivered, n - 1)
      else
        var entries' := if delivered[n - 1] then entries + [LookupUtils.Entry(id)] else entries;
        var rest := FollowUpRun(entries', ids, delivered, n - 1);
        FollowUpResult([Alert(id, delivered[n - 1])] + rest.alerts, rest.entries)
  }

  /** What a pass that has already sent `alerts` ends with after looking at the first `n` ids. */
  ghost function Pending(alerts: seq<Alert>, entries: seq<LookupUtils.Entry>, ids: seq<string>, delivered: seq<bool>, n: nat): FollowUpResult
    requires n <= |ids| && |delivered| == |ids|
  {
    var rest := FollowUpRun(entries, ids, delivered, n);
    FollowUpResult(alerts + rest.alerts, rest.entries)
  }

  /** One turn of the pass, in terms of `Pending`. */
  lemma {:induction false} PendingStep(alerts: seq<Alert>, entries: seq<LookupUtils.Entry>, ids: seq<string>, delivered: seq<bool>, n: nat)
    requires 0 < n <= |ids| && |delivered| == |ids|
    ensures Pending(alerts, entries, ids, delivered, n)
      == if KeyedList.HasKey(entries, LookupUtils.EntryId, ids[n - 1]) then Pending(alerts, entries, ids, delivered, n - 1)
         else Pending(alerts + [Alert(ids[n - 1], delivered[n - 1])],
                      if delivered[n - 1] then entries + [LookupUtils.Entry(ids[n - 1])] else entries,
                      ids, delivered, n - 1)
  {
    var id := ids[n - 1];
    if !KeyedList.HasKey(entries, LookupUtils.EntryId, id) {
      var entries' := if delivered[n - 1] then entries + [LookupUtils.Entry(id)] else entries;
      var rest := FollowUpRun(entries', ids, delivered, n - 1);
      assert alerts + ([Alert(id, delivered[n - 1])] + rest.alerts) == (alerts + [Alert(id, delivered[n - 1])]) + rest.alerts;
    }
  }

  /** The pass sends at most one alert per job it looks at. */
  lemma {:induction false} FollowUpAlertsBounded(entries: seq<LookupUtils.Entry>, ids: seq<string>, delivered: seq<bool>, n: nat)
    requires n <= |ids| && |delivered| == |ids|
    ensures |FollowUpRun(entries, ids, delivered, n).alerts| <= n
    decreases n
  {
    if n > 0 {
      var id := ids[n - 1];
      if KeyedList.HasKey(entries, LookupUtils.EntryId, id) {
        FollowUpAlertsBounded(entries, ids, delivered, n - 1);
      } else {
        var entries' := if delivered[n - 1] then entries + [LookupUtils.Entry(id)] else entries;
        FollowUpAlertsBounded(entries', ids, delivered, n - 1);
        var rest := FollowUpRun(entries', ids, delivered, n - 1);
        assert FollowUpRun(entries, ids, delivered, n).alerts == [Alert(id, delivered[n - 1])] + rest.alerts;
      }
    }
  }

  lemma {:induction false} DeliveredCons(a: Alert, rest: seq<Alert>)
    ensures Delivered([a] + rest) == (if a.delivered then [a.id] else []) + Delivered(rest)
  {
    assert ([a] + rest)[1..] == rest;
  }

  lemma {:induction false} EntriesCons(id: string, rest: seq<string>)
    ensures Entries([id] + rest) == [LookupUtils.Entry(id)] + Entries(rest)
  {
    assert ([id] + rest)[1..] == rest;
  }

  /** The pass appends an entry for each delivered alert, in order, and
      nothing else. */
  lemma {:induction false} FollowUpAppendsDelivered(entries: seq<LookupUtils.Entry>, ids: seq<string>, delivered: seq<bool>, n: nat)
    requires n <= |ids| && |delivered| == |ids|
    ensures var r := FollowUpRun(entries, ids, delivered, n);
      r.entries == entries + Entries(Delivered(r.alerts))
    decreases n, 1
  {
    if n == 0 {
      assert Entries(Delivered([])) == [] && entries + [] == entries;
    } else if KeyedList.HasKey(entries, LookupUtils.EntryId, ids[n - 1]) {
      FollowUpAppendsDelivered(entries, ids, delivered, n - 1);
    } else {
      NewAlertAppends(entries, ids, delivered, n);
    }
  }

  /** The step of `FollowUpAppendsDelivered` for a job with no entry yet. */
  lemma {:induction false} NewAlertAppends(entries: seq<LookupUtils.Entry>, ids: seq<string>, delivered: seq<bool>, n: nat)
    requires 0 < n <= |ids| && |delivered| == |ids|
    requires !KeyedList.HasKey(entries, LookupUtils.EntryId, ids[n - 1])
    ensures var r := FollowUpRun(entries, ids, delivered, n);
      r.entries == entries + Entries(Delivered(r.alerts))
    decreases n, 0
  {
    var id, d := ids[n - 1], delivered[n - 1];
    var entries' := if d then entries + [LookupUtils.Entry(id)] else entries;
    FollowUpAppendsDelivered(entries', ids, delivered, n - 1);
    var rest := FollowUpRun(entries', ids, delivered, n - 1);
    AlertAppends(entries, id, d, rest.alerts, rest.entries);
  }

  /** One alert in front of a pass that appended the delivered ones keeps
      the pass appending exactly the delivered ones. */
  lemma {:induction false} AlertAppends(entries: seq<LookupUtils.Entry>, id: string, d: bool, alerts: seq<Alert>, after: seq<LookupUtils.Entry>)
    requires after == (if d then entries + [LookupUtils.Entry(id)] else entries) + Entries(Delivered(alerts))
    ensures after == entries + Entries(Delivered([Alert(id, d)] + alerts))
  {
    var tail := Delivered(alerts);
    DeliveredCons(Alert(id, d), alerts);
    if d {
      EntriesCons(id, tail);
      assert after == entries + ([LookupUtils.Entry(id)] + Entries(tail));
    } else {
      assert [] + tail == tail;
    }
  }

  /** None of `alerts` names a job with an entry in `entries`. */
  predicate NoneKnown(entries: seq<LookupUtils.Entry>, alerts: seq<Alert>) {
    forall k :: 0 <= k < |alerts| ==> !KeyedList.HasKey(entries, LookupUtils.EntryId, alerts[k].id)
  }

  /** No alert goes to a job that already had a follow-up entry. */
  lemma {:induction false} FollowUpSkipsKnown(entries: seq<LookupUtils.Entry>, ids: seq<string>, delivered: seq<bool>, n: nat)
    requires n <= |ids| && |delivered| == |ids|
    ensures NoneKnown(entries, FollowUpRun(entries, ids, delivered, n).alerts)
    decreases n
  {
    if n > 0 {
      var id, d := ids[n - 1], delivered[n - 1];
      if KeyedList.HasKey(entries, LookupUtils.EntryId, id) {
        FollowUpSkipsKnown(entries, ids, delivered, n - 1);
      } else {
        var entries' := if d then entries + [LookupUtils.Entry(id)] else entries;
        FollowUpSkipsKnown(entries', ids, delivered, n - 1);
        var rest := FollowUpRun(entries', ids, delivered, n - 1);
        var alerts := [Alert(id, d)] + rest.alerts;
        forall k | 0 <= k < |alerts|
          ensures !KeyedList.HasKey(entries, LookupUtils.EntryId, alerts[k].id)
        {
          if k > 0 {
            var a := rest.alerts[k - 1];
            assert alerts[k] == a;
            assert !KeyedList.HasKey(entries', LookupUtils.EntryId, a.id);
            forall j | 0 <= j < |entries|
              ensures LookupUtils.EntryId(entries[j]) != a.id
            {
              assert entries'[j] == entries[j];
            }
          }
        }
        assert NoneKnown(entries, alerts);
      }
    }
  }

  /** The follow-up pass over the jobs the marketplace returned for the
      keyed ids, with the delivery results of the alerts as inputs. */
  method FollowUp(lookup: LookupUtils.LookupStore, ids: seq<string>, delivered: seq<bool>) returns (alerts: seq<Alert>)
    requires |delivered| == |ids|
    modifies lookup
    ensures FollowUpRun(old(lookup.entries), ids, delivered, |ids|) == FollowUpResult(alerts, lookup.entries)
    ensures old(lookup.Valid()) ==> lookup.Valid()
  {
    ghost var whole := FollowUpRun(lookup.entries, ids, delivered, |ids|);
    alerts := [];
    var i := |ids|;
    while i > 0
      invariant 0 <= i <= |ids|
      invariant old(lookup.Valid()) ==> lookup.Valid()
      invariant whole == Pending(alerts, lookup.entries, ids, delivered, i)
      decreases i
    {
      var id := ids[i - 1];
      PendingStep(alerts, lookup.entries, ids, delivered, i);
      if lookup.Get(id).None? {
        alerts := alerts + [Alert(id, delivered[i - 1])];
        if delivered[i - 1] {
          var _ := lookup.Add(id);
        }
      }
      i := i - 1;
    }
    assert alerts + [] == alerts;
  }
}
