# Models and proofs for the acquisition services

This project models the parts of the system whose correctness depends on interleavings,
rounding or ordering, and proves what they keep over every input and every run.

- `RateLimiter.dfy` - the FIFO scheduler in front of outside services: concurrency cap,
  spacing, cool-down, aborts, one coalesced pump timer.
- `CapitalAllocation.dfy` - the greedy allocator with a budget, category caps and family caps.
- `Portfolio.dfy` - the all-or-nothing portfolio pass with a limit per decision.
- `Quantiles.dfy`, `CompSelection.dfy`, `FinancialModel.dfy` - comparable prices, quartiles,
  outlier removal, resale values, maximum bid and deployable capital.
- `Leases.dfy`, `CompJobs.dfy`, `ProcessSteps.dfy` - three claim protocols on database rows.
- `Canonical.dfy`, `Ledger.dfy` - canonical hashing and the hash-chained ledger built on it.
- `TtlCache.dfy`, `Retry.dfy` - the in-memory cache and the retry loop.
- `Common.dfy`, `Money.dfy` - options and results, and dollars rounded to cents.

Where the source changes state step by step there are two levels. A value-level machine
(`State`, `Step`, `Next`, `Exec`) has one step per atomic action, and a run is any sequence of
steps; a step that could not be taken leaves the state alone. A class then holds the source's
fields, its methods work the way the source's do, and each method's contract says that it makes
exactly the machine's step. Theorems about `Exec` therefore speak about every interleaving of
the methods. Beside them stand laws, mostly named `...Law`, which say on the literal fields,
constants and events what each operation does in every state or every run. Database statements
and transactions are atomic steps; `skip locked` is a set of rows another transaction holds. The
clock never goes back, a new claim token is fresh, and a hash is a free constructor.

Money is exact: dollars are reals, and rounding to cents is floor(100 x + 0.5) / 100.

Where code and intention part, the code is modelled and the difference is stated exactly:

- `sortValue` loses `Date` contents and `__proto__` keys, so hashes agree on the remaining part
  (`Canonical.HashesAgreeExactly`, `Canonical.HashBlindSpots`). Integer-like keys are serialised
  before the others in numeric order, not in sorted order; that order depends on the set of keys
  alone, so the laws are not affected.
- The ledger head commits to the history only of a ledger that verifies
  (`Ledger.HeadCommitsToHistory`, `Ledger.ForkHidesBehindHead`); in every run it commits to
  the chain it was built on (`Ledger.HeadCommitsToChain`).
- With random jitter a task may wait for any number of pump firings
  (`RateLimiter.JitterCanDelayForever`); without it three are enough.
- Counting every reported outcome, beside reclaims and takeovers, as an attempt is right
  exactly when no report came late
  (`CompJobs.RawCountIffNoLateReport`, `CompJobs.LateReportBreaksRawCount`).
- The portfolio pass conserves whole-cent cash exactly when no BUY it funds ends in half a
  cent (`Portfolio.ConservedIff`, `Portfolio.HalfCentIsMadeUp`). A skipped decision can turn out
  to fit after all exactly when it asks, within its own limits, for more than the cash but not
  more than the rounded cash, and the cash does not end in half a cent; with whole-cent capitals
  it never does (`Portfolio.MissedIff`,
  `Portfolio.NothingMissedIff`, `Portfolio.FractionalCashCanBeAdded`).
- Unfunded opportunities are irrelevant to the others unless their profit or return is NaN: those
  are blocked, but they tie with unequal opportunities and change the ranking around them
  (`CapitalAllocation.StrikesOutIff`, `CapitalAllocation.BlockedNaNChangesFunding`).
- Payments of an amount keep every decision's own category and family limits exactly when
  rounding does not lower the amount as it is recorded (`Portfolio.OwnLimitsKeptIff`,
  `Portfolio.FractionsBreakLimits`).
- The maximum bid is commented as preserving the required profit. Where that profit is
  attainable at the estimated price, and in whole cents, the bid does so exactly when it is at
  most that price or the extra sales tax vanishes in rounding; where it is not, the bid is
  clamped to zero and preserves it only if the item would earn it at price zero
  (`FinancialModel.MaxBidPreservesProfitIff`, `FinancialModel.CostsExceedIff`,
  `FinancialModel.MaxBidCanLoseProfit`, `FinancialModel.ClampedBidCanLoseProfit`).
- Conservative resale can exceed expected resale when the sold median rounds to zero
  (`FinancialModel.ResaleOrdered`, `FinancialModel.ConservativeCanExceedExpected`).
- An empty cache key is never evicted for space, and while it is oldest nothing is
  (`TtlCache.SetExceedsLimitIff`, `TtlCache.EmptyKeyDisablesLimit`).
- A process step that succeeded can be claimed again after a late failure report
  (`ProcessSteps.ClaimableIff`, `ProcessSteps.SuccessCanRunAgain`).

`dafny verify dfyconfig.toml` checks the project.

## Model

| member | source | states |
|---|---|---|
| `RateLimiter.SchedulerSafety` | src/services/rateLimiter.ts:137-301 | Over every run: tasks start in increasing id order, consecutive starts are at least minTimeMs apart, no start falls inside a cool-down asked for earlier, no promise settles twice, at most maxConcurrent tasks are active and the queue never exceeds maxQueueSize. |
| `RateLimiter.TaskConservation` | src/services/rateLimiter.ts:147-361 | Over every run the ids handed out are split between queued, running and settled; the settled ones are those the history settles; the clamp on activeCount never clips; the queue holds no settled task. |
| `RateLimiter.NoLostWakeup` | src/services/rateLimiter.ts:208-301 | Whenever the event loop is idle, a non-empty queue with a free slot has a pump pending, due no later than the first moment a start is allowed plus jitter, although requests are dropped while one is pending. |
| `RateLimiter.StartsWithinThreeFirings` | src/services/rateLimiter.ts:233-279 | Without jitter and new cool-downs, any stretch of a run with three pump firings that find a task and a free slot starts a task, whatever other firings and steps come in between. |
| `RateLimiter.JitterCanDelayForever` | src/services/rateLimiter.ts:258-268 | With jitter there is, for every n, a continuation with n such firings that starts nothing. |
| `RateLimiter.RemoveKeeps` | src/services/rateLimiter.ts:353-361 | Removing a queued id removes exactly that id and keeps the order of the others. |
| `RateLimiter.PumpIsRun` | src/services/rateLimiter.ts:246-279 | What one call of the pump does, however many tasks it starts, is a run of the machine that begins with a firing. |
| `RateLimiter.TimesFollowLog` | src/services/rateLimiter.ts:77-80 | Over every run spacing is measured from the last start (from zero before the first), the cool-down ends at the latest end ever asked for, and ids are handed out from one in turn. |
| `RateLimiter.ScheduleLaw` | src/services/rateLimiter.ts:137-192 | Over every run a task is refused exactly when the queue holds maxQueueSize, and then nothing else changes; otherwise it gets a new id and is settled at once if aborted, else queued last with a pump requested unless one is pending. |
| `RateLimiter.AbortLaw` | src/services/rateLimiter.ts:175-187 | Over every run an abort of a queued task takes that one place out of the queue and settles it; any other abort changes nothing. |
| `RateLimiter.CoolDownLaw` | src/services/rateLimiter.ts:208-231 | A positive cool-down keeps the later of both ends and asks for a pump at its own end; any other changes nothing. |
| `RateLimiter.FireLaw` | src/services/rateLimiter.ts:240-279 | Over every run a due pump starts the head of the queue exactly when there is one, a slot is free, the cool-down is over and spacing plus the drawn jitter leave nothing to wait; otherwise it starts nothing and comes back when that obstacle is over. |
| `RateLimiter.IterationLaw` | src/services/rateLimiter.ts:247-278 | The further trips of the loop start tasks under the same condition and end otherwise. |
| `RateLimiter.SettleLaw` | src/services/rateLimiter.ts:303-341 | Over every run a running task settles once and keeps its slot; any other is left alone. |
| `RateLimiter.ReleaseLaw` | src/services/rateLimiter.ts:296-300 | Over every run the release of a settled task lowers the active count by exactly one and asks for a pump at once. |
| `RateLimiter.Limiter.Create` | src/services/rateLimiter.ts:98-135 | Construction succeeds exactly when every option given is finite and in range, otherwise reports the first failing check; a queue limit left out is 1000 and jitter left out is none, and the limiter starts idle. |
| `RateLimiter.Limiter.ScheduleTask` | src/services/rateLimiter.ts:137-192 | Makes the machine's schedule step. A task that is not aborted is accepted exactly when fewer than maxQueueSize wait; it then goes last in the queue under a new id, and a refused one changes nothing. |
| `RateLimiter.Limiter.Abort` | src/services/rateLimiter.ts:175-187 | Makes the abort step: a queued unsettled task is found, removed without disturbing the others and settled; any other is left alone. |
| `RateLimiter.Limiter.CoolDownFor` | src/services/rateLimiter.ts:208-231 | Makes the cool-down step: the window ends at the later of its old end and the one asked for, and a pump is requested for then. |
| `RateLimiter.Limiter.RequestPump` | src/services/rateLimiter.ts:233-244 | Makes the request step: dropped while one is pending, otherwise due after the non-negative delay. |
| `RateLimiter.Limiter.PumpOnce` | src/services/rateLimiter.ts:247-278 | One trip round the pump's loop is one iteration of the machine; it goes on exactly while there is more to try. |
| `RateLimiter.Limiter.Pump` | src/services/rateLimiter.ts:240-279 | The timer callback with its whole loop does what the machine's pump run does. |
| `RateLimiter.Limiter.SettleTask` | src/services/rateLimiter.ts:303-341 | Makes the settle step: a running task's promise settles once and its slot is still held. |
| `RateLimiter.Limiter.ReleaseSlot` | src/services/rateLimiter.ts:296-300 | Makes the release step: exactly one slot is given back and a pump requested at once. |
| `CapitalAllocation.TermsAreValid` | src/services/capitalAllocationEngine.ts:167-186 | For a policy that passes validation, deployable capital and both caps are whole cents, not negative, and no cap is above the budget. |
| `CapitalAllocation.ConservationAndCaps` | src/services/capitalAllocationEngine.ts:172-229 | Through every iteration the balance is not negative, balance plus allocations is the deployable capital, every exposure entry is the sum of its items' allocations, and none exceeds its limit. |
| `CapitalAllocation.AllowedIs` | src/services/capitalAllocationEngine.ts:203-212 | The amount allowed is the rounded ask or one of three whole-cent balances, whichever is least: rounding after the minimum never crosses a bound. |
| `CapitalAllocation.PostIsExact` | src/services/capitalAllocationEngine.ts:225-228 | Booking an allocation never rounds anything away. |
| `CapitalAllocation.GreedyIsMaximal` | src/services/capitalAllocationEngine.ts:179-232 | At the end every opportunity that passes governance and scores at least the BUY_B minimum has exactly its rounded, per-item capped requirement, or its budget, category cap or family cap is used up to the cent. |
| `CapitalAllocation.GreedyOnFields` | src/services/capitalAllocationEngine.ts:179-232 | For a valid policy, an opportunity that passes every check and scores at least the BUY_B minimum gets its required capital, at most the per-item maximum and to the cent, or the lines add up to the budget, its category cap or its family cap. |
| `CapitalAllocation.TierLaw` | src/services/capitalAllocationEngine.ts:195-232 | A line is blocked exactly when a check fails; it has no tier for a score below the BUY_B minimum; a funded one is under review or bid monitoring by its status, and otherwise BUY_A+, BUY_A or BUY_B by the minimum its score reaches. |
| `CapitalAllocation.ExposureLaw` | src/services/capitalAllocationEngine.ts:203-220 | A line is reported as limited exactly when its opportunity passed every check and, at its turn, asked for less than half a cent or met a used-up budget or cap. |
| `CapitalAllocation.NothingAfterExhaustion` | src/services/capitalAllocationEngine.ts:203-217 | Once the budget or a cap is used up, no later opportunity under it is funded. |
| `CapitalAllocation.FundedIffTier` | src/services/capitalAllocationEngine.ts:195-232 | Blocked and low-scoring opportunities never get money, and money comes exactly with a funded tier. |
| `CapitalAllocation.UnfundedAreIrrelevant` | src/services/capitalAllocationEngine.ts:179-232 | In a pass, striking out any set of unfunded opportunities changes no other line and not the final books. |
| `CapitalAllocation.RemovingUnfunded` | src/services/capitalAllocationEngine.ts:176-232 | Without NaN profits and returns, removing any unfunded positions of the input and allocating again gives every remaining opportunity the line it had, also beside an equal one that was removed. |
| `CapitalAllocation.SelectThenRank` | src/services/capitalAllocationEngine.ts:176-176 | Without NaN, striking out positions of the input commutes with ranking. |
| `CapitalAllocation.StrikesOutIff` | src/services/capitalAllocationEngine.ts:392-397 | Striking an opportunity out from anywhere among opportunities without NaN commutes with ranking exactly when its own profit and return are not NaN. |
| `CapitalAllocation.BlockedNaNChangesFunding` | src/services/capitalAllocationEngine.ts:342-352 | With one dollar to spend, an opportunity is funded beside one with a NaN profit, which governance blocks, and gets nothing without it. |
| `CapitalAllocation.MarksFollow` | src/services/capitalAllocationEngine.ts:176-176 | The marks carried along with the ranking stay with their opportunities. |
| `CapitalAllocation.LowerRankedAreIrrelevant` | src/services/capitalAllocationEngine.ts:179-232 | What is ranked below never changes the lines above. |
| `CapitalAllocation.AddingKeepsLinesAbove` | src/services/capitalAllocationEngine.ts:176-232 | Without NaN, adding any opportunities anywhere in the input leaves the lines as they were down to the first that goes to an added one. |
| `CapitalAllocation.AddingLowerRanked` | src/services/capitalAllocationEngine.ts:176-232 | Without NaN, adding one opportunity at any place of the input leaves every line ranked above it as it was; those above do not rank below it, nor those below above. |
| `CapitalAllocation.CompareIsTotalPreorder` | src/services/capitalAllocationEngine.ts:392-397 | Without NaN, infinities included, the comparison is a total preorder whose ties are exactly equal keys; its direction is that of `CapitalAllocation.CompareMeans`. |
| `CapitalAllocation.CompareMeans` | src/services/capitalAllocationEngine.ts:392-397 | Without NaN, an opportunity may come before another exactly when its score is higher, or equal and its profit higher, or both equal and its return higher, or all equal and its id collates no later; infinities are ordered like numbers. |
| `CapitalAllocation.LinesAreRanked` | src/services/capitalAllocationEngine.ts:176-179 | The allocation has one line for each opportunity with its own score, and without NaN every line comes before all later ones by higher score, then profit, then return, then lower id. |
| `CapitalAllocation.ScoreLaw` | src/services/capitalAllocationEngine.ts:361-390 | The score is, to six places, 42 % profit per required dollar, 28 % return, 13 % velocity, 12 % confidence and 5 % execution boost, with the velocity steps at 14, 30, 45 and 60 days. |
| `CapitalAllocation.GovernanceLaw` | src/services/capitalAllocationEngine.ts:303-359 | Governance passes exactly what passes every check in the list, and otherwise names the first that fails. |
| `CapitalAllocation.PolicyLaw` | src/services/capitalAllocationEngine.ts:409-419 | A policy is accepted exactly when it passes every check in the list, and otherwise the first failing one is reported. |
| `CapitalAllocation.TermsLaw` | src/services/capitalAllocationEngine.ts:167-186 | The reserve is its share of the capital to the nearest cent, the rest is deployable, and both caps are their shares of that to the nearest cent. |
| `CapitalAllocation.KeyLaw` | src/services/capitalAllocationEngine.ts:466-468 | Exposure is booked under the opportunity's own category and family; one left out or empty counts as "unknown". |
| `CapitalAllocation.RankedIsSorted` | src/services/capitalAllocationEngine.ts:176-176 | Without NaN, the ranking has the given opportunities, in the order of the comparison, which `CapitalAllocation.CompareMeans` and `CapitalAllocation.LinesAreRanked` spell out on the fields. |
| `CapitalAllocation.SortedIsUnique` | src/services/capitalAllocationEngine.ts:392-397 | Two ordered lists of the same opportunities, without NaN and with ids that collate apart, are equal. |
| `CapitalAllocation.OrderIndependence` | src/services/capitalAllocationEngine.ts:176-301 | Without NaN and with distinct ids the allocation is identical for every permutation of the input. |
| `CapitalAllocation.TiesKeepInputOrder` | src/services/capitalAllocationEngine.ts:176-176 | In every list without NaN, opportunities that tie with a given one on all keys keep their input order. |
| `CapitalAllocation.TiedPairFollowsInput` | src/services/capitalAllocationEngine.ts:392-397 | Two different opportunities are ranked the same way from both input orders exactly when they do not tie, so the id condition cannot be dropped. |
| `CapitalAllocation.KeepThenRank` | src/services/capitalAllocationEngine.ts:176-176 | Without NaN, filtering commutes with ranking. |
| `CapitalAllocation.ClosingBalance` | src/services/capitalAllocationEngine.ts:287-293 | The totals reported at the end are the sum of the lines and the deployable capital less that sum, to the cent. |
| `CapitalAllocation.AllocateCapital` | src/services/capitalAllocationEngine.ts:162-301 | The loop with its running balance and exposure maps returns exactly the specified lines and totals, or the first policy error; those lines are ranked and funded as `CapitalAllocation.LinesAreRanked` and `CapitalAllocation.GreedyOnFields` say on the fields. |
| `Portfolio.RankedIsStableSort` | src/services/acquisitionAllocator.ts:34-40 | The decisions are ordered by the five keys, are exactly those given, and keep their order where all keys are equal. |
| `Portfolio.RanksFirstMeans` | src/services/acquisitionAllocator.ts:34-40 | A decision may come before another exactly when the first of priority, cash-turn profit, deployable profit and return that differs is larger, or, where none differs, its risk is no larger; absent values count as zero. |
| `Portfolio.RankedOnFields` | src/services/acquisitionAllocator.ts:34-40 | Every decision of the ranking may come before all later ones. |
| `Portfolio.FundedFits` | src/services/acquisitionAllocator.ts:109-125 | A decision is funded exactly when it is a BUY with something to pay that fits the cash and its own two limits. |
| `Portfolio.FundedOnFields` | src/services/acquisitionAllocator.ts:53-72 | A decision is funded exactly when it is a BUY, asks for something, that much is left, and its category's and family's recorded payments with it stay within its shares of the cash. |
| `Portfolio.BooksRecord` | src/services/acquisitionAllocator.ts:69-72 | What is booked under a category or family is the sum of its payments so far, rounded as each was added. |
| `Portfolio.BalanceLaw` | src/services/acquisitionAllocator.ts:69-69 | The balance starts at the cash, and each funded decision takes its amount off, to the nearest cent; no other changes it. |
| `Portfolio.ReasonsLaw` | src/services/acquisitionAllocator.ts:73-125 | A skipped BUY carries exactly the reasons that hold - nothing asked for, too little cash, category share, family share - and at least one; all other lines carry none. |
| `Portfolio.PositionsAndCounts` | src/services/acquisitionAllocator.ts:68-98 | Funded positions are 1, 2, 3, ... in order; funded plus skipped is the number of BUYs; only a BUY is funded, and no decision is changed. |
| `Portfolio.ConservedUpToHalfCents` | src/services/acquisitionAllocator.ts:69-70 | For whole-cent cash, allocated plus remaining is the cash plus one cent for each funded amount that ends in exactly half a cent. |
| `Portfolio.ConservedIff` | src/services/acquisitionAllocator.ts:101-106 | For whole-cent cash nothing is lost or made up exactly when no BUY that has something to pay and fits the books it meets ends in half a cent. |
| `Portfolio.ConservedWithoutHalfCents` | src/services/acquisitionAllocator.ts:101-106 | In particular when no BUY's required capital ends in half a cent. |
| `Portfolio.HalfCentIsMadeUp` | src/services/acquisitionAllocator.ts:69-70 | A dollar and one BUY of half a cent are reported as one cent allocated and a dollar remaining. |
| `Portfolio.WholeCapitalsConserved` | src/services/acquisitionAllocator.ts:69-106 | For whole-cent capitals and any cash, what is reported as allocated is what the funded decisions require, and it adds up with the remainder to the rounded cash. |
| `Portfolio.OwnLimitsKept` | src/services/acquisitionAllocator.ts:53-72 | A funded decision leaves its category and its family, itself included, within its own limits, if no BUY ranked above it asks for an amount that rounding lowers. |
| `Portfolio.OwnLimitsKeptIff` | src/services/acquisitionAllocator.ts:71-72 | For every amount: payments of it keep all own limits, in every ranked portfolio and for all cash, exactly when rounding does not lower the amount. |
| `Portfolio.FractionsBreakLimits` | src/services/acquisitionAllocator.ts:71-72 | A dollar and two BUYs of 0.004 under a limit of 0.005: both are funded. |
| `Portfolio.SkippedCannotBeAdded` | src/services/acquisitionAllocator.ts:58-96 | No skipped BUY with something to pay could be added to the final allocation without overdrawing the cash or breaking its own limits, for every cash amount, unless the BUY asks for more than the cash but not more than the rounded cash, within its limits, and the cash does not end in half a cent; with whole-cent capitals not even then. |
| `Portfolio.MissedIff` | src/services/acquisitionAllocator.ts:58-96 | Exactly such a BUY can be skipped although the final books have room for it: each one is, in some ranked portfolio. |
| `Portfolio.NothingMissedIff` | src/services/acquisitionAllocator.ts:17-96 | No portfolio ever misses a decision exactly when rounding does not raise the cash, or the cash ends in half a cent. |
| `Portfolio.FractionalCashCanBeAdded` | src/services/acquisitionAllocator.ts:69-69 | A concrete portfolio in which a skipped BUY would fit after all. |
| `Portfolio.AllocateAcquisitionPortfolio` | src/services/acquisitionAllocator.ts:13-107 | The pass with its running variables and two maps returns exactly the specified lines and totals over the ranked decisions. |
| `FinancialModel.QuartilesOrdered` | src/services/acquisitionMarketAnalytics.ts:7-15 | For any prices the three sold quartiles are present together, whole cents, not negative and in order. |
| `FinancialModel.ResaleOrdered` | src/services/acquisitionFinancialModel.ts:28-31 | Expected resale is at most aggressive resale, and conservative at most expected, for all comps except exactly those whose sold median is zero cents while there is an active median. |
| `FinancialModel.ConservativeCanExceedExpected` | src/services/acquisitionFinancialModel.ts:142-147 | One comp sold for 0.004 beside one offered at 100 gives conservative 82 and expected 0. |
| `FinancialModel.ResaleOrderedFromOneCent` | src/services/acquisitionFinancialModel.ts:142-147 | For sold prices of at least a cent, conservative is at most expected is at most aggressive. |
| `FinancialModel.ProfitAtMaxBid` | src/services/acquisitionFinancialModel.ts:61-77 | Buying at the maximum bid earns the required profit, to the cent, less the costs at that bid in excess of the costs the model assumed; where the required profit is out of reach the bid is zero and earns the net at price zero. |
| `FinancialModel.MaxBidPreservesProfitIff` | src/services/acquisitionFinancialModel.ts:76-77 | For every input: the maximum bid preserves the required profit exactly when costs at the bid do not exceed the assumed costs (are lower, where rounding the required profit fell short of it), or, where the bid is clamped to zero, when the net at price zero reaches the profit. |
| `FinancialModel.CostsExceedIff` | src/services/acquisitionFinancialModel.ts:42-69 | With a sales tax that is not negative, costs at a bid exceed the assumed costs exactly for a bid above the estimated price whose extra tax survives rounding. |
| `FinancialModel.BidAboveEstimateIff` | src/services/acquisitionFinancialModel.ts:73-77 | Where the required profit is attainable, the maximum bid exceeds the estimated price exactly when the item, bought at that price, earns more than the required profit in whole cents. |
| `FinancialModel.MaxBidPreservesProfitFromInput` | src/services/acquisitionFinancialModel.ts:73-77 | So a whole-cent profit that is attainable is preserved exactly when the item earns no more than that at the estimated price, or the extra tax is lost in rounding. |
| `FinancialModel.MaxBidCanLoseProfit` | src/services/acquisitionFinancialModel.ts:76-77 | A concrete item whose maximum bid of 79 earns 13.10 where 20 was required. |
| `FinancialModel.ClampedBidCanLoseProfit` | src/services/acquisitionFinancialModel.ts:76-77 | The same item with 200 required is given a maximum bid of 0, which earns 100. |
| `FinancialModel.CapitalWithinLimits` | src/services/acquisitionFinancialModel.ts:79-85 | Deployable capital is whole cents, within the cash-reserve limit and the per-item limit, and one more available unit would break one of them. |
| `FinancialModel.ModelledIff` | src/services/acquisitionFinancialModel.ts:36-38 | Net, profit and bid are reported exactly for items with a positive purchase price and a comparable price that is not zero; otherwise nothing but the purchase price is. |
| `FinancialModel.PurchaseLaw` | src/services/acquisitionFinancialModel.ts:124-133 | The purchase price is, to the cent, the buy-now price; else the largest of 1.75 times the bid, the bid and 25, and 35 % of the sold median; else the current price; else nothing. |
| `FinancialModel.ResaleLaw` | src/services/acquisitionFinancialModel.ts:28-31 | For a modelled item the aggressive value is the upper quartile, else the expected one; the expected value is the sold median, else the active one; the conservative value is the lower quartile, else 92 % of the sold median, else 82 % of the active one; each to the cent. |
| `FinancialModel.CostsLaw` | src/services/acquisitionFinancialModel.ts:40-69 | The costs are the itemised fees, shipping, risk reserves, tax and fixed amounts, each rounded to the nearest cent where the source rounds. |
| `FinancialModel.ModelLaw` | src/services/acquisitionFinancialModel.ts:61-86 | Of a modelled item: net is resale less the itemised costs, profit is exactly net less price, the maximum bid is net less the required profit or zero, units are the most that are available and fit both cash limits, and capital and deployable profit are exactly units times the cost basis and the profit. |
| `FinancialModel.NetWithinThreeCents` | src/services/acquisitionFinancialModel.ts:51-71 | The six roundings come to three cents at most: net differs by no more from resale less the unrounded costs. |
| `FinancialModel.ReportedBidPreservesIff` | src/services/acquisitionFinancialModel.ts:73-77 | Where the required profit is whole cents and attainable, buying at the reported bid earns it exactly when the reported profit is no higher, or the extra tax is lost in rounding. |
| `FinancialModel.MarketLaw` | src/services/acquisitionMarketAnalytics.ts:8-15 | The quartiles and medians are those of the sold and active prices above zero, interpolated at a quarter, a half and three quarters of the ranks, to the cent. |
| `FinancialModel.ModelledPortfolioConserves` | src/services/acquisitionFinancialModel.ts:85-85 | A portfolio of modelled decisions conserves money to the cent whatever the cash on hand. |
| `Quantiles.SortedAscends` | src/services/acquisitionMarketAnalytics.ts:8-9 | Sorting gives an ascending list of the same prices. |
| `Quantiles.AtBetween` | src/services/acquisitionMarketAnalytics.ts:60-65 | The value interpolated at a position lies between the values at the ranks on either side of it. |
| `Quantiles.QuantileMonotone` | src/services/acquisitionMarketAnalytics.ts:58-66 | On every sorted list the interpolated, rounded quantile is monotone in q, and absent exactly on the empty list. |
| `Quantiles.QuantileInRange` | src/services/acquisitionCompSelection.ts:244-252 | A quantile lies between the rounded least and greatest values. |
| `Quantiles.QuantileInterpolates` | src/services/acquisitionMarketAnalytics.ts:58-66 | With k the rank at or below the position, the quantile is the nearest cent to the mean of the values at k and k + 1, weighted by how far the position lies between. |
| `Quantiles.AscendingIsUnique` | src/services/acquisitionMarketAnalytics.ts:8-9 | There is one ascending list of given prices. |
| `CompSelection.NormalizeComp` | src/services/acquisitionCompSelection.ts:71-107 | A comp is accepted exactly when its price is positive, its text matches and its score reaches the threshold; otherwise the reason is the missing price, then the text, then the score. |
| `CompSelection.KeyFilterIsPriceFilter` | src/services/acquisitionCompSelection.ts:143-145 | Filtering by the keys of the outliers removes exactly the sold comps outside the fences. |
| `CompSelection.ExactPartition` | src/services/acquisitionCompSelection.ts:37-45 | Every comp is in exactly one list: accepted and inside the fences, unchanged and in order; or rejected, in order, flag cleared and reason set, the outlier reason exactly for those that had been accepted. |
| `CompSelection.RejectedIffFarOut` | src/services/acquisitionCompSelection.ts:134-146 | An accepted comp is left out of the used ones exactly when it is sold, there are five accepted sold prices or more, their quartiles differ, and its price is more than 1.75 quartile distances beyond one of them; the used ones are listed as sold or active by their source. |
| `CompSelection.CountsOfComps` | src/services/acquisitionCompSelection.ts:37-64 | The outlier count and the used comps add up to the accepted ones, and the sold and active ones to those used. |
| `CompSelection.BetweenQuartilesIsInside` | src/services/acquisitionCompSelection.ts:137-142 | A price between the unrounded quartiles is inside the fences built from the rounded ones. |
| `CompSelection.MiddleRanksSurvive` | src/services/acquisitionCompSelection.ts:134-146 | With five sold prices or more, every sold comp whose rank lies between the two quartile positions survives. |
| `CompSelection.SoldNeverEmptied` | src/services/acquisitionCompSelection.ts:37-48 | If any sold comp was accepted, some sold comp is left after outlier removal. |
| `Leases.WriteLandsIffLatestToken` | src/repositories/prong2Repository.ts:592-716 | Over every run a token-checked accept, reject, no-match or retry-needed write lands exactly when its token is that of the row's most recent claim; otherwise row and watchlist are unchanged. |
| `Leases.SupersededWriteChangesNothing` | src/repositories/prong2Repository.ts:592-716 | Once a row has been claimed again, writes with an earlier claim's token change nothing, whatever happened in between. |
| `Leases.OneLiveLease` | src/repositories/prong2Repository.ts:512-590 | Whenever a row is claimed, each earlier claim of it had been given back with its own token or had expired. |
| `Leases.AttemptsCountClaims` | src/repositories/prong2Repository.ts:529-536 | Over every run process_attempts is the number of claims of the row. |
| `Leases.ClaimLaw` | src/repositories/prong2Repository.ts:512-536 | Over every run a claim with a positive time to live is granted exactly when the row is scored (products), pending or retry-needed (candidates) and no lease of it stands: it was never claimed, its latest claim was given back or is past, or an unfenced writer cleared it. It then gets a new token, a lease of that length and one more attempt; otherwise nothing changes. |
| `Leases.ExpiredLeaseIsGranted` | src/repositories/prong2Repository.ts:523-524 | A claim whose worker is gone is granted again once its time is past: a concrete run. |
| `Leases.PutLaw` | src/repositories/prong2Repository.ts:445-510 | A new product is scored, a new candidate pending, neither claimed; saving a product again scores it and keeps its claim. |
| `Leases.UnfencedLaw` | src/repositories/prong2Repository.ts:913-934 | The writers that check no token set their own status; the best match and the queue clear the expiry, a decision does not, and the queue passes over decided candidates. |
| `Leases.UnfencedElsewhere` | src/repositories/prong2Repository.ts:913-934 | These writers touch candidates only, and only rows that exist. |
| `Leases.StepKeepsInv` | src/repositories/prong2Repository.ts:512-1019 | Every claim, write, insert and unfenced update keeps tokens fresh, row columns in step with the claim history, and ended leases ended. |
| `Leases.Prong2Repository.ClaimBatch` | src/repositories/prong2Repository.ts:832-888 | A claim query takes unlocked rows in query order up to the limit, each with a fresh token and lease; the rows it takes are exactly the first that are scored (products), pending or retry-needed (candidates) and have no expiry or one that is past; a non-positive limit or time to live is an error. |
| `Leases.Prong2Repository.UpsertWatchlistFromClaimedProduct` | src/repositories/prong2Repository.ts:592-692 | The transaction writes the watchlist first and takes it back on a token mismatch: in effect the accept step, with an error exactly on a mismatch. |
| `Leases.Prong2Repository.RejectClaimedSnapshotProduct` | src/repositories/prong2Repository.ts:694-716 | Makes the reject step; an error exactly on a token mismatch. |
| `Leases.Prong2Repository.MarkCandidateNoMatch` | src/repositories/prong2Repository.ts:976-996 | Makes the no-match step; an error exactly on a token mismatch. |
| `Leases.Prong2Repository.MarkCandidateRetryNeeded` | src/repositories/prong2Repository.ts:998-1019 | Makes the retry-needed step; an error exactly on a token mismatch. |
| `CompJobs.LocksFollowStatus` | src/services/jobStore.ts:146-647 | Over every run a listing in processing is locked, and a locked one is in processing or retry. |
| `CompJobs.ReopenedBetweenClaims` | src/services/jobStore.ts:146-647 | Between an earlier claim of a listing and a later claim that found it open there is a mark for retry or a stale reclaim; all the store's own claims are such. |
| `CompJobs.AttemptsAccountedFor` | src/services/jobStore.ts:206-212 | comp_attempts is the number of claims, the store's and the comp worker's, and equals outcomes that found the listing in processing plus stale reclaims plus takeovers plus one if it is in processing now. |
| `CompJobs.RawCountIffNoLateReport` | src/services/jobStore.ts:393-498 | Counting all reported outcomes instead is right exactly when every report found the listing in processing; leaving takeovers out as well is right exactly when late reports and takeovers are equally many. |
| `CompJobs.LateReportBreaksRawCount` | src/services/jobStore.ts:393-412 | A claim whose completion is reported twice counts two for one attempt. |
| `CompJobs.TimesRespected` | src/services/jobStore.ts:190-195 | Neighbouring events respect time: no claim before a postponed listing is due, none while a retry lock or the lock of a claim lives, a reclaim directly follows the stale claim whose lock it takes, and a recovered listing had been finished. |
| `CompJobs.RowLaw` | src/services/jobStore.ts:393-498 | Over every run a listing is completed exactly when the last thing that happened to it is a success, dead-lettered exactly when it is a terminal failure, in processing exactly after a claim, pending exactly when new or reset; after a retry report it is unlocked and due at the time reported, after a reclaim due at once. |
| `CompJobs.ClaimLaw` | src/services/jobStore.ts:190-212 | The store claims exactly listings that are pending or in retry, due, and unlocked or past their lock; the worker also those in processing and, if recovered, finished ones; a claim sets status and lock and counts one attempt, and a refused one changes nothing. |
| `CompJobs.RetryLaw` | src/services/jobStore.ts:526-627 | A retry lock goes exactly to listings in retry that are due and free and sets the lock alone; a reset takes exactly listings in retry back to pending. |
| `CompJobs.ReclaimLaw` | src/services/jobStore.ts:629-647 | A reclaim moves exactly the processing listings whose lock is older than the given minutes. |
| `CompJobs.JobStore.ClaimNextCompJob` | src/services/jobStore.ts:146-252 | Claims the first listing in query order that is pending or in retry, due, unlocked or past its lock, and not locked elsewhere, or none if there is none. |
| `CompJobs.JobStore.ClaimNextListing` | src/workers/compAnalysisWorker.ts:1294-1388 | The comp worker's claim: the first listing in query order that is due, unlocked or past its lock, and open, in processing or recovered, or none if there is none. |
| `CompJobs.JobStore.ClaimRetryCandidates` | src/services/jobStore.ts:526-607 | Locks the first listings in query order that are in retry, due and unlocked or past their lock, up to the limit, changing only their lock; a short batch passed nothing over. |
| `CompJobs.JobStore.WriteOutcome` | src/services/jobStore.ts:393-498 | By id alone: a success leaves the listing completed, a retry in retry and due at its time, a terminal failure dead-lettered; the lock is cleared, attempts and all other listings stay. |
| `CompJobs.JobStore.ResetListingToPending` | src/services/jobStore.ts:609-627 | Makes the reset step and says whether the listing was in retry. |
| `CompJobs.JobStore.ReclaimStaleProcessingLocks` | src/services/jobStore.ts:629-647 | Moves exactly the processing listings whose lock is older than the given minutes to retry, due at once, and counts them. |
| `ProcessSteps.ReclaimNeedsFailureAndFiveMinutes` | src/repositories/processStepRepository.ts:65-178 | A step is claimed again only right after a failure was reported, and more than five minutes after every earlier claim. |
| `ProcessSteps.ClaimableIff` | src/repositories/processStepRepository.ts:65-219 | Over every run a step is claimable exactly when nothing happened to it yet, or the last report was a failure and its last claim is over five minutes old. |
| `ProcessSteps.RowLaw` | src/repositories/processStepRepository.ts:65-219 | Over every run the status is what the last claim or report left, and token and expiry are those of the last claim, the expiry three hundred seconds after it. |
| `ProcessSteps.StepLaw` | src/repositories/processStepRepository.ts:65-219 | A claim takes exactly a pending or failed step past any expiry, under a new token and for three hundred seconds; a report changes the status alone. |
| `ProcessSteps.CreateLaw` | src/repositories/processStepRepository.ts:31-63 | A created step waits in its queue unclaimed; creating an existing one changes nothing. |
| `ProcessSteps.SuccessCanRunAgain` | src/repositories/processStepRepository.ts:132-178 | A step that succeeded is running again, under another token, after a late failure report and five minutes. |
| `ProcessSteps.ProcessStepRepository.ClaimNext` | src/repositories/processStepRepository.ts:65-101 | Claims the first unlocked step of the queue in query order that is pending or failed and past any expiry, or none if there is none. |
| `ProcessSteps.ProcessStepRepository.ClaimById` | src/repositories/processStepRepository.ts:103-130 | Gives a new token and three hundred seconds exactly when the step is pending or failed and past any expiry. |
| `ProcessSteps.ProcessStepRepository.WriteReport` | src/repositories/processStepRepository.ts:132-219 | By id alone the status becomes succeeded, failed, dead-lettered or cancelled as reported; token, expiry and all other steps stay. |
| `Canonical.HashesAgreeExactly` | src/services/hashStable.ts:3-21 | Two values hash alike exactly when their visible parts are equal up to reordering of object keys at every depth, array order counting. |
| `Canonical.PlainHashesAgreeExactly` | src/services/hashStable.ts:3-21 | Without dates and `__proto__` keys that holds of the values themselves. |
| `Canonical.HashBlindSpots` | src/services/hashStable.ts:13-18 | Any two dates hash alike, and a lone `__proto__` key is not seen. |
| `Canonical.SortIsIdempotent` | src/services/hashStable.ts:11-21 | Sorting a sorted value changes nothing. |
| `Canonical.SortedObjectIs` | src/services/hashStable.ts:13-18 | What is hashed of an object is its fields without `__proto__`, values sorted in turn, in ascending order of their keys. |
| `Canonical.LessMeans` | src/services/hashStable.ts:15-15 | One key comes before another exactly when, at the first place where they differ, it is over or has the smaller character. |
| `Ledger.VerifiesIffUnforked` | src/services/forensicLedger.service.ts:8-68 | For every interleaving of two-step appends an entity verifies exactly when no two of its rows were computed from the same head. |
| `Ledger.ForksLast` | src/services/forensicLedger.service.ts:57-68 | Once an entity fails to verify, no later append makes it verify. |
| `Ledger.DroppedIffDuplicate` | src/services/forensicLedger.service.ts:30-52 | The conflict clause drops an insert exactly when the same content was already stored on the same head; `Ledger.DroppedIffSameAppend` says it of the inputs. |
| `Ledger.ContentLaw` | src/services/forensicLedger.service.ts:14-28 | Two appends have the same content exactly when correlation id, entity, mutation type and actor are equal, `before` is absent in both or alike, `after` is alike and the payloads are alike - up to key order, in what hashing sees, a payload that is absent or null counting as the empty object. |
| `Ledger.ContentShows` | src/services/forensicLedger.service.ts:14-28 | The content names the mutation as given, and each of its three hashes is that of exactly the values alike the one it stands for. |
| `Ledger.DroppedIffSameAppend` | src/services/forensicLedger.service.ts:30-52 | Over every run an insert is dropped exactly when the same append, in that sense, was already stored on the same head. |
| `Ledger.SerialAppend` | src/services/forensicLedger.service.ts:8-55 | An append that is not interleaved always stores a row and keeps every entity verifying. |
| `Ledger.SerialRunsVerify` | src/services/forensicLedger.service.ts:8-68 | In serial runs no append is lost and every entity always verifies. |
| `Ledger.HeadCommitsToHistory` | src/services/forensicLedger.service.ts:14-28 | Of two runs, if one entity's ledger verifies and both have the same last hash, the other holds the same rows exactly when it verifies too. |
| `Ledger.HeadCommitsToChain` | src/services/forensicLedger.service.ts:14-28 | In every run, verified or not, a head commits to its own chain: any two entities with the same last hash both store every row that chain was built on, in order. |
| `Ledger.HeadCommitsToAppends` | src/services/forensicLedger.service.ts:14-28 | Two verified ledgers with the same last hash, of any runs, were made by the same appends, one by one, in the same order. |
| `Ledger.ChainCommitsToAppends` | src/services/forensicLedger.service.ts:14-28 | Verified or not, for every row on the chain behind a shared head the same append was made in both runs. |
| `Ledger.ForkHidesBehindHead` | src/services/forensicLedger.service.ts:9-14 | Without verification two ledgers of different length can share their last hash: a concrete pair of runs. |
| `Ledger.ForensicLedger.Begin` | src/services/forensicLedger.service.ts:9-28 | The walk back finds the entity's newest row: no head exactly when the entity has no row, otherwise the hash of its row with no other behind it; whatever else is pending, that is the machine's read. The content names the mutation as given and equals that of another append exactly when the two are the same. |
| `Ledger.ForensicLedger.Finish` | src/services/forensicLedger.service.ts:30-54 | The second statement stores the row unless its hash is stored, and returns the hash either way. |
| `Ledger.ForensicLedger.AppendNow` | src/services/forensicLedger.service.ts:8-55 | Both statements with nothing in between make the specified serial append of the input, whose content is that of `Ledger.ContentLaw`. |
| `Ledger.ForensicLedger.VerifyContinuity` | src/services/forensicLedger.service.ts:57-68 | The walk with a running previous hash answers whether the entity's rows form a chain. |
| `TtlCache.GetAnswersAsMap` | src/services/cache.ts:60-96 | Over every run a read answers what an unbounded map with expiry times would, except that it misses keys taken for space since they were last set; `TtlCache.ReadAnswersIff` says it of the steps. |
| `TtlCache.ReadAnswersIff` | src/services/cache.ts:60-96 | Over every run a read answers a value exactly when the last accepted set of the key stored it, neither a delete nor a clear came after, its time is not over, and no later set of a new key found the cache full with this key the oldest and not empty. |
| `TtlCache.SetLaw` | src/services/cache.ts:80-96 | A set is accepted when its time to live is finite and positive; it takes the oldest key, unless that is empty, exactly when the key is new and the cache holds its limit or more; a present key keeps its place, a new one becomes the newest; the counters follow. |
| `TtlCache.GetLaw` | src/services/cache.ts:60-78 | A read hits exactly a key whose time is not over, takes an expired one out without disturbing the order, and counts accordingly. |
| `TtlCache.DeleteLaw` | src/services/cache.ts:98-103 | A delete takes out exactly the key, keeps the order of the others and counts; of an absent key it changes nothing. |
| `TtlCache.SweepLaw` | src/services/cache.ts:117-139 | A sweep leaves exactly the keys whose time is not over, in order, and counts the others as evictions. |
| `TtlCache.LimitStays` | src/services/cache.ts:48-48 | Over every run the limit is the one given, or 5000. |
| `TtlCache.SweepChangesNoAnswer` | src/services/cache.ts:117-139 | A sweep changes no key's answer, now or later. |
| `TtlCache.SweepRemovesExpired` | src/services/cache.ts:117-131 | A sweep removes exactly the expired entries and counts them as evictions. |
| `TtlCache.CountsAddUp` | src/services/cache.ts:60-152 | Hits and misses add up to the reads, and entries added to those present, deleted, evicted and cleared. |
| `TtlCache.SetExceedsLimitIff` | src/services/cache.ts:85-94 | A set takes the cache over its limit exactly when it was full, the key is new and the oldest key is empty. |
| `TtlCache.SizeBounded` | src/services/cache.ts:85-147 | While no empty key is set, the size stays within the limit over every run. |
| `TtlCache.EmptyKeyDisablesLimit` | src/services/cache.ts:141-148 | From any state whose oldest key is empty, whatever the limit and the size, a run of sets evicts nothing: the keys are those before with the new ones appended. |
| `TtlCache.KeysAfterHas` | src/services/cache.ts:85-94 | So every key that was present or set is present afterwards. |
| `TtlCache.EmptyKeyFirst` | src/services/cache.ts:85-148 | It is enough that the empty key is the first one set. |
| `TtlCache.MemoryTtlCache.Get` | src/services/cache.ts:60-78 | Answers and updates store and counters as specified; an expired entry is removed and missed. |
| `TtlCache.MemoryTtlCache.Set` | src/services/cache.ts:80-96 | Stores as specified, evicting first when full; an error exactly on an invalid time to live. |
| `TtlCache.MemoryTtlCache.Delete` | src/services/cache.ts:98-103 | Removes a present key as specified, counts it, and otherwise changes nothing. |
| `TtlCache.MemoryTtlCache.Clear` | src/services/cache.ts:105-108 | Empties the store as specified; the counters but the size stay. |
| `TtlCache.MemoryTtlCache.EvictExpiredEntries` | src/services/cache.ts:117-139 | The sweep loop, removing while it walks, does what the specified sweep does. |
| `Retry.WithRetry` | src/services/retry.ts:46-138 | The loop reports exactly what stopping at the first attempt that leads no further would, including work that throws before it gives a promise; the throw after the loop is not reached. |
| `Retry.CallsAre` | src/services/retry.ts:60-133 | Work is called on attempts 0..k without gaps, k at most maxRetries, and attempt k is made exactly when every earlier one led on and no abort came first. |
| `Retry.ReturnsFirstSuccess` | src/services/retry.ts:69-71 | A run returns a value exactly when the first attempt that leads no further succeeds with it. |
| `Retry.AnotherAttemptIff` | src/services/retry.ts:84-103 | Over every run another attempt follows exactly when this one failed with an error that leads on, retries are left, and neither the hook nor an abort stopped it. An error leads on by its classification, else its flag, else its status (429 and from 500 up), else its text; the caller's own test overrides them. |
| `Retry.EndingFollowsLastAttempt` | src/services/retry.ts:60-133 | Over every run the last attempt alone decides the ending: its value, its error, the hook's error or an abort; and every other attempt is followed by one sleep. |
| `Retry.PlannedDoubles` | src/services/retry.ts:228-248 | The planned delay starts at the base and doubles with each attempt up to the maximum; a finite positive retry-after takes its place. |
| `Retry.SleepsFollowDraws` | src/services/retry.ts:267-271 | Over every run the i-th sleep is the planned delay of the i-th error plus the drawn whole part of the jitter cap - the share of the planned delay, at least 50 ms - up to the maximum. |
| `Retry.DelayBounds` | src/services/retry.ts:228-271 | Every delay lies between the planned one and maxDelay, and jitter adds less than its cap. |
| `Retry.ExponentialDelayBounds` | src/services/retry.ts:242-247 | Without a retry-after each delay lies in [min(maxDelay, base * 2^attempt), maxDelay]. |
| `Retry.SleepIsBounded` | src/services/retry.ts:105-131 | A run sleeps at most maxRetries times, the i-th time for the i-th delay, and at most maxRetries * maxDelay in all. |
| `Retry.OptionsAreSane` | src/services/retry.ts:273-295 | Each option on its own is used without its fraction, or falls back to its default when left out, not finite or negative; the jitter ratio is used up to one. |

## Left out

- IEEE-754 rounding, NaN and infinities in amounts: dollars are exact reals, except where a finiteness check decides.
- `JSON.stringify` details (undefined, functions, big integers, number formatting) and the inside of SHA-256: the digest is injective on the sorted value.
- `localeCompare`: a real-valued collation of ids stands for its order. The sort is the stable insertion by the comparison; for NaN, where the comparison is not consistent, engines may order differently.
- Rate limiter: logging, the statistics counters, fractional options, the use of the task timeout, the inner work of a task that timed out, and aborts of running tasks, which only settle them.
- Capital allocator: reason codes, risk flags, the copied report fields and the summary counts; status texts are taken after trimming and set lookup.
- Portfolio: the rescoring by the rules engine is an input, and so are the texts added to decisions.
- Financial model: return on investment, capital and velocity efficiency, and shipping signal parsing; the cost rates enter as given.
- Comp selection: price parsing from raw rows, the text heuristics, similarity scores and the quality score are inputs or absent.
- Leases: payload columns, certification mode, advisory locks, and the opportunity and search-job rows that queueing inserts. Writers in other repositories appear as one step that makes a candidate unclaimable and keeps its claim columns (src/repositories/acquisitionDecisionRepository.ts:827).
- CompJobs: error texts, the dead-letter table, and how a listing comes to have a candidate, to end or to be recovered, which are inputs of the comp worker's claim.
- ProcessSteps: result and error columns, and the list of stale locks.
- Ledger: the payload column and timestamps; rows are kept in id order, and the order of ids is the order of inserts.
- Cache: the sweep timer's schedule and the logger; sweeps may happen at any time.
- Retry: logging, elapsed time, the text search behind classification, and the race with a timeout, whose loser is an ordinary failure.
