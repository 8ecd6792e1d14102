# Freelancer bidding bot: failover, intake decisions and stores

This project models the decision core of a bot that bids on jobs from a
freelancing marketplace.

- **AI provider failover** (`send_ai_request`). Seven text-generation
  providers are tried in rotation from a shared cursor. Providers already
  marked failed are skipped. Every reply is checked:
  - In language mode the stripped reply is accepted only when it is one word.
  - In proposal mode the first line must contain "generated".

  A rejected provider is marked failed. When every provider fails, the
  failed set is cleared.
- **The two intake loops** (`auto_function`, `semi_auto_function`). For each
  polled job the loops run this chain:
  1. the already-seen check;
  2. the age, status and budget filters;
  3. the fixed-price and only-fixed deferrals;
  4. language detection and proposal generation;
  5. the bid amount rule;
  6. the bid and the classification of the marketplace's refusal message.

  The semi-automatic loop also runs a follow-up pass over jobs already keyed.
- **The three stores.** The pending-review list (`{id, data, amount}`
  records in a JSON file), the follow-up list (`{id}` records) and the
  dedup table (a SQLite table of unique job ids).
- **`interruptible_sleep`**, which sleeps in slices and raises when the
  shutdown flag is up.

Modules, one per source file, plus two helper modules:

- `AiService` (`ai_service.dfy`):
  - `Run` is the specification of one request. It takes the cursor, the
    failed set and the verdict on every provider's reply.
  - The class `Failover` holds the cursor and the failed set.
    `Failover.SendAiRequest` is the `while` loop, proved equal to `Run`.
- `FreelancerService` (`freelancer_service.dfy`):
  - `AutoStep` and `SemiStep` give what one job does. The result is an
    ordered log of effects (store writes, alerts, the bid) and whether the
    loop goes on, stops (an interrupted sleep) or is abandoned (the loop-wide
    exception handler).
  - `RunSteps` folds a step over a search result, each job seeing the stores
    its predecessors left.
  - The methods `RunBatch`, `AutoBatch`, `SemiBatch` and `FollowUp` run the
    loops on the store objects and are proved equal to those functions.
- `BidAmount` (`bid_amount.dfy`): the amount rule, with Python 3's `round`
  (half to even) written out.
- `Utils`, `LookupUtils`, `Database`: the stores, as classes whose methods
  update a `seq` of records or a `set` of ids.
  - `KeyedList` holds the first-match search, the filter-by-id and the
    guarded append that both JSON stores share.
  - `Utils.InterruptibleSleep` is the slice loop.
- `PyStr`: the parts of Python's `str` the reply checks use (`strip`,
  `split`, `splitlines`, `lower`, `in`, `replace`, `join`).
- `Jobs`: the job snapshot and the `config.py` constants.

Two consequences of the code are worth spelling out:

- **Cursor after failover.** After a successful request the cursor stays on
  the provider that answered, because the function returns before it
  advances (ai_service.py:51-55). `AiService.FirstAcceptedWins` states this.
- **Floor before raise.** Take a fixed job with budget 25 to 40, rate 1 and
  a minimum budget of 30. The `min_budget / rate` floor is applied first and
  raises 20 to 30, which already clears `budget_min`, so the bid is 30
  (freelancer_service.py:178-183). `BidAmount.MinimumBudgetFloorFirst`
  states this.

## Model

| member | source | states |
|---|---|---|
| AiService.Accept | ai_service.py:42-55 | In proposal mode a reply is accepted exactly when the first line of the stripped reply contains "generated" after lower-casing. In language mode it is accepted exactly when the stripped reply is non-empty with no whitespace, and then that stripped reply is returned unchanged. Any accepted text has no whitespace at either end. An exception, `None`, a non-string or an empty reply is never accepted. |
| AiService.Next | ai_service.py:26 | The cursor step always lands on a valid index `< N`. |
| AiService.NextIsModulo | ai_service.py:64 | The step is exactly `(cursor + 1) % N`. |
| AiService.Run | ai_service.py:18-69 | The cursor stays in `[0, N)`. A request from attempt `a` on sends at most `N - a` provider requests. An exhausted request leaves the failed set empty. |
| AiService.RunQueries | ai_service.py:21-65 | Requests go only to providers not marked failed at entry. Every provider sent one was rejected, except on success the last, whose accepted text is returned and on which the cursor stays. On success the failed set grows by exactly the providers rejected in this call. |
| AiService.ExhaustionResets | ai_service.py:21-69 | When no provider accepts, the failed set is empty afterwards and the cursor is back at its entry value (N single steps). Exactly the providers not marked failed at entry were sent a request. |
| AiService.ExhaustionRetriesFirstProvider | ai_service.py:67-69 | After an exhausted request, the next request sends its first request to the provider at the entry cursor. The reset means no provider stays locked out. |
| AiService.FirstAcceptedWins | ai_service.py:51-65 | Start at provider 0 with nothing failed. If providers `0..k-1` are rejected and provider `k` is accepted, the request returns `k`'s text, marks exactly `0..k-1` failed and leaves the cursor on `k`. |
| AiService.ProposalAfterMarkerLine | ai_service.py:45-51 | A reply whose first line is "generated" in any letter case, followed by a trimmed body broken only by `\n`, is accepted with exactly that body as the proposal. |
| AiService.ProposalOfMarkedFirstLine | ai_service.py:45-51 | Take any reply whose first line contains "generated" in any letter case, followed by a trimmed body broken only by `\n`. It is accepted, and the proposal is that first line lower-cased, with every marker removed and trimmed, then `\n` and the body unchanged, with the whole trimmed. |
| AiService.MarkerOnlyGivesEmptyProposal | ai_service.py:47-51 | A reply that is only the marker line is accepted as an empty proposal. |
| AiService.TwoWordsRejected | ai_service.py:53-55 | Language mode rejects the two-word reply "english extra". |
| AiService.Failover.constructor | config.py:79-81 | The process starts with the cursor at 0 and no provider failed. |
| AiService.Failover.SendAiRequest | ai_service.py:8-69 | The loop returns the text, new cursor and new failed set that `Run` specifies for the replies given. It keeps the cursor valid. |
| PyStr.Strip | ai_service.py:43 | `strip()` leaves no whitespace at either end and never lengthens the text. |
| PyStr.StripIsSlice | ai_service.py:43 | What `strip()` keeps is one contiguous slice of the input, and everything it drops is whitespace. |
| PyStr.Split | ai_service.py:54 | Every word `split()` returns is non-empty and holds no whitespace. |
| PyStr.SingleWord | ai_service.py:54 | For a stripped reply, `len(resp.split()) == 1` holds exactly when the reply is non-empty and has no whitespace. |
| PyStr.JoinSplitLines | ai_service.py:47-51 | `"\n".join(s.splitlines())` gives `s` back when `\n` is its only line break and it does not end with one. |
| KeyedList.Find | utils.py:38-44 | The lookup returns `None` exactly when no record has the id. Otherwise it returns a record with that id, with no earlier record having it. |
| KeyedList.Remove | utils.py:32-36 | After the filter, no record has the id and the list is no longer than before. |
| KeyedList.RemoveKeepsOthers | utils.py:35 | The filter keeps every record with another id, as many times as it occurred. |
| KeyedList.RemoveConcat | lookup_utils.py:35 | The filter keeps the order of what it keeps: it distributes over concatenation. |
| KeyedList.RemoveAbsent | lookup_utils.py:32-36 | Deleting an id no record has leaves the list unchanged. |
| KeyedList.RemoveThenFind | utils.py:32-44 | After a delete, a lookup of that id finds nothing, and a lookup of any other id finds what it found before. |
| KeyedList.UniqueFind | utils.py:40-44 | In a list with unique ids, the lookup of a record's id returns that record. |
| KeyedList.RemoveKeepsUnique | utils.py:35 | Deleting keeps the ids unique. |
| KeyedList.InsertFacts | utils.py:22-30 | The guarded append keeps ids unique. With a new id the record goes at the end after the unchanged old ones, and a lookup then returns it. With a known id nothing changes. |
| KeyedList.InsertTwice | utils.py:26-30 | After one insert, a second insert with the same id changes nothing. |
| Utils.ProjectStore.constructor | utils.py:10-15 | With no file, the store is the empty list. |
| Utils.ProjectStore.Add | utils.py:22-30 | Returns `True` exactly when no record had the id. Then `{id, data, amount}` is appended at the end; otherwise the list is unchanged. Ids stay unique. |
| Utils.ProjectStore.Delete | utils.py:32-36 | The list becomes the filter-by-id of the old list, so no record with the id is left. Ids stay unique. |
| Utils.ProjectStore.Get | utils.py:38-44 | Returns `None` exactly when no record has the id. Otherwise it returns a stored record with that id, and with unique ids it is the only one. |
| Utils.Trunc | utils.py:51 | `int()` truncates toward zero: the result is within one of its argument on the side toward zero. |
| Utils.ScheduleAddsUp | utils.py:51-57 | The slices of an uninterrupted sleep each last more than 0 and at most `check_interval` seconds, and sum to `total_seconds`. There are none exactly when `total_seconds <= 0`. |
| Utils.InterruptibleSleep | utils.py:46-57 | The sleep raises exactly when the shutdown flag is up at the start of some slice of the plan. It then sleeps only the slices before the first such one. Otherwise it sleeps the whole plan. |
| LookupUtils.LookupStore.constructor | lookup_utils.py:10-15 | With no file, the store is the empty list. |
| LookupUtils.LookupStore.Add | lookup_utils.py:22-30 | Returns `True` exactly when no record had the id. Then `{id}` is appended at the end; otherwise the list is unchanged. Ids stay unique. |
| LookupUtils.LookupStore.Delete | lookup_utils.py:32-36 | The list becomes the filter-by-id of the old list, so no record with the id is left. Ids stay unique. |
| LookupUtils.LookupStore.Get | lookup_utils.py:38-43 | Returns `None` exactly when no entry has the id. Otherwise it returns a stored entry with that id, and with unique ids it is the only one. |
| Database.DedupStore.Exists | database.py:16-19 | Tests whether the id is in the table. The contracts of `Store` and `Delete` are stated through it. |
| Database.DedupStore.constructor | database.py:8-13 | A freshly created table is empty. |
| Database.DedupStore.Store | database.py:21-25 | Afterwards the id exists. Storing a present id changes nothing. No other id's membership changes. |
| Database.DedupStore.Delete | database.py:32-35 | Afterwards the id does not exist, and no other id's membership changes. |
| Database.DedupStore.AllIds | database.py:27-30 | Returns every stored id exactly once and nothing else. Order is not fixed. |
| BidAmount.RoundIsNearest | freelancer_service.py:178 | `round` is never more than one half away from its argument, and a tie goes to the even integer. |
| BidAmount.RoundMonotone | freelancer_service.py:183 | `round` never reverses an order. |
| BidAmount.FixedFloor | freelancer_service.py:178-181 | For a fixed job the amount is raised to at least `min_budget / rate`. It is the larger of that and the half-of-budget-max share. |
| BidAmount.RaiseToBudgetMin | freelancer_service.py:182-183 | The raised amount is at least `budget_min`. An amount already there is kept. A smaller one becomes `max(round(budget_max * p / 2), budget_min)`. |
| BidAmount.Amount | freelancer_service.py:178-183 | The amount is at least `budget_min`, and at least `min_budget / rate` for a fixed job. It fails exactly for a fixed job whose rate is missing or zero. |
| BidAmount.AmountMonotone | freelancer_service.py:399-404 | For non-negative budgets, a larger `budget_max` never gives a smaller amount. |
| BidAmount.DeferFixed | freelancer_service.py:143-145 | The deferral amount of a fixed job under the threshold is at least `min_budget / rate`. |
| BidAmount.DeferOnlyFixed | freelancer_service.py:151-153 | The deferral amount of a non-fixed job under `only_fixed` is at least `budget_min`. It is exactly what a bid would have offered. |
| BidAmount.HalfOfBudgetMax | freelancer_service.py:178-183 | Fixed job, rate 1, budget 50 to 200: the bid is 100. |
| BidAmount.MinimumBudgetFloorFirst | freelancer_service.py:178-183 | Fixed job, rate 1, budget 25 to 40, minimum budget 30: the bid is 30. |
| BidAmount.RaisedToBudgetMin | freelancer_service.py:399-404 | Non-fixed job with budget 10 to 15: half of 15 rounds to 8, which is below 10, so the amount is 10. |
| FreelancerService.Screen | freelancer_service.py:118-137 | The filters apply in order: age of at least `look_back_hours` first, then a status other than "active", then a missing budget end. A job passing all three has both budget ends. |
| FreelancerService.AutoStep | freelancer_service.py:106-269 | One job in the automatic loop. The loop is abandoned only for an unseen fixed job whose exchange rate is missing or zero (the `float(None)` or the division raises), and then only the amount-0 review alert goes out. It stops only when a sleep was interrupted. The lemmas below state the rest of its behaviour. |
| FreelancerService.BidOutcome | freelancer_service.py:203-256 | Once sent, the bid is the first effect. A placed bid keys its job. The loop is never abandoned here, and it stops only when the back-off sleep was interrupted. |
| FreelancerService.SemiStep | freelancer_service.py:367-408 | One job in the semi-automatic loop. It never stops the loop and never bids: its only effects are alerts, keying this job and putting it on the review list. It is abandoned only for a fixed job whose rate is missing or zero, with the amount-0 review alert. |
| FreelancerService.SeenJobsUntouched | freelancer_service.py:106-107 | A job in the dedup table or on the review list is skipped by both loops with no write, alert or bid. |
| FreelancerService.FilteredJobs | freelancer_service.py:118-137 | The automatic loop puts a filtered job on the review list with amount 0. The semi-automatic loop keys it in the dedup table instead (lines 378-397). Only a missing budget sends an alert, with amount 0, before the write. |
| FreelancerService.DeferralsPlaceNoBid | freelancer_service.py:139-157 | A fixed job whose converted budget top is under `min_budget` is set aside with the fixed floor. A non-fixed job under `only_fixed` is set aside with the amount a bid would offer. Neither path bids. |
| FreelancerService.GenerationFailureStoresNothing | freelancer_service.py:159-173 | A failed language or proposal generation writes to no store and sends one `gen_proposal` alert carrying the job id (also lines 257-269). The loop stops only when the back-off sleep is interrupted. |
| FreelancerService.BidsOnlyWhenAbsent | freelancer_service.py:175-207 | A bid goes out only for an unseen job that passed the filters, whose language and proposal were generated, whose pre-bid sleep was not interrupted, and whose id is still absent from the dedup table just before sending. It offers the computed amount and the generated proposal. |
| FreelancerService.StoredBeforeProposalAlert | freelancer_service.py:203-207 | A placed bid is keyed in the dedup table before the "proposal" alert is sent. |
| FreelancerService.RefusalOutcomes | freelancer_service.py:209-256 | A refused bid keys the job exactly for "already bid", the NDA and unrecognised messages. It alerts exactly for the NDA, bidding too fast and unrecognised messages. Only "out of bids" and "too fast" can end the loop, and only when their back-off sleep is interrupted. |
| FreelancerService.Classify | freelancer_service.py:209-256 | A refusal falls to the generic case exactly when its text is none of the four known messages. |
| FreelancerService.RefusalTexts | freelancer_service.py:210-245 | Each of the four known refusal texts gets its own case, and every other message gets the generic one. |
| FreelancerService.SemiDeliveredGate | freelancer_service.py:399-408 | The semi-automatic loop puts a job on the review list exactly when it passed the filters, had a computable amount and its review alert was delivered. The alert carries that amount. |
| FreelancerService.ApplyAllGrows | freelancer_service.py:122-147 | Store writes only add: no key is dropped and the review list only grows at its end. |
| FreelancerService.RunStepsGrows | freelancer_service.py:85-107 | A whole batch only adds to the stores. |
| FreelancerService.NoBidOnSeenJob | freelancer_service.py:106-107 | A job the stores already hold gets no bid anywhere in a batch and is still held afterwards, so it never gets a bid again. |
| FreelancerService.NoBidOnSeenJobFrom | freelancer_service.py:85-107 | Over any suffix of the batch, no bid goes to a job already held. |
| FreelancerService.PlacedBidKeysJob | freelancer_service.py:205-206 | A successfully placed bid leaves its job keyed in the dedup table, hence seen by every later step. |
| FreelancerService.SemiRunNeverBids | freelancer_service.py:346-408 | The semi-automatic loop never places a bid. |
| FreelancerService.RunBatch | freelancer_service.py:85-107 | The `for` over a search result, last job first, applies each job's writes before the next job is looked at. The result equals the `RunSteps` fold. The review list keeps unique ids. |
| FreelancerService.AutoBatch | freelancer_service.py:85-269 | The automatic loop over one search result equals the `AutoStep` fold. |
| FreelancerService.SemiBatch | freelancer_service.py:346-408 | The semi-automatic loop over one search result equals the `SemiStep` fold. |
| FreelancerService.FollowUpAlertsBounded | freelancer_service.py:307-317 | The follow-up `for` (`FollowUpRun`), last job first, sends at most one alert per returned job. `FollowUpAppendsDelivered` and `FollowUpSkipsKnown` state what it stores and skips. |
| FreelancerService.FollowUpAppendsDelivered | freelancer_service.py:314-317 | The follow-up pass adds a lookup entry for exactly the delivered alerts, in order, after the old entries. |
| FreelancerService.FollowUpSkipsKnown | freelancer_service.py:314-315 | No follow-up alert goes to a job that already had a lookup entry. |
| FreelancerService.FollowUp | freelancer_service.py:307-317 | The follow-up loop sends the alerts and leaves the entries that `FollowUpRun` specifies. Entry ids stay unique. |

## Left out

- I/O is replaced by values and in-memory state:
  - the marketplace SDK calls, the text-generation calls and the Telegram sends are inputs (`AutoInputs`, `SemiInputs`, `replies`, `delivered`);
  - JSON files and SQLite are in-memory `seq`s and a `set`;
  - the clock is a number of seconds.
- Sleeps are not modelled, except `interruptible_sleep`'s slice plan, which is a ghost record. The fixed pauses between jobs are dropped.
- The text-generation results are inputs of each job's step, not calls to `AiService.Failover.SendAiRequest`. The failover is proved on its own.
- Concurrency between the two loops and the command handlers is not modelled. Each job is one sequential step, and the dedup check before a bid reads the stores as that step found them.
- Floating point is modelled as exact reals. `round` is Python 3's half-to-even on reals.
- `bid_avg_percent` is the constant 0.50. `BidAmount.AmountMonotone` assumes non-negative budgets.
- Notifications are recorded only by kind and the fields that identify them. Message formatting and the `"nda"` and `"error"` payload layouts are not modelled.
- The loop-wide exception handler is an abandoned batch that sends a review alert with amount 0. The possibly unbound `data` it reads is not modelled.
- Exceptions other than the ones `float(None)` and division by zero raise, and `place_project_bid` failures other than a refusal message, are not modelled.
- These parts of the loops are not modelled: the search request and its error handling, the outer `while` with its pause flags, and the `id_flag`/`get_self` bidder lookup. The bidder id is a parameter.
- The follow-up query is built as `project_ids=[bidden_projects]`, a list inside a list. The model takes the jobs the marketplace returns as its input and does not model the query.
- Utils.InterruptibleSleep: reads the global shutdown flag as the source does. The `shut_down_flag` argument, which the source never calls, is not modelled.
- PyStr.Lower: lower-cases ASCII letters only. Non-ASCII case mapping is not modelled.
- PyStr.SplitLines: knows the line boundaries Python's `splitlines()` uses, including `\r\n` as one. `AiService.ProposalAfterMarkerLine` covers bodies broken only by `\n`.
- These files are not part of this model: `main.py` (web routes, signals, task start-up), `telegram_service.py` (HTTP and HTML formatting) and `bot_commands.py` (pause toggles behind an authorisation check).
- Of `config.py`, only the constants the decisions read are modelled.
