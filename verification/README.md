# Credit manager: a verified model

This project models the parts of the credit-manager plugin in which money, quota and concurrency are
decided, and proves what they promise.

- **The quota ledger** (`Sums`, `Calendar`, `Ledger`, `LedgerInvariant`, `LedgerSteps`, `LedgerRuns`,
  `LedgerBounds`, `LedgerLimits`, `LedgerSlots`, `TokenCaps`, `TokenQuery`, `Store`, `ReserveAnswers`,
  `StoreAnswers`). The store has one
  connection (`internal/store/store.go:108`), so every store method is an atomic step over callers, keys,
  reservations and usage rows. `Ledger` gives the meaning of each step without clamps; the class `Store`
  is the SQL statement by statement, clamps and loops included, and every method is proved to compute its
  step. The laws over runs (conservation, exact and one-sided agreement of counters with the ledger,
  overdraft, period and slot bounds, token caps) are proved about the steps.
- **Quota-window history** (`StableSort`, `QuotaObservations`, `QuotaHistory`, `HistoryAnswers`). The reconstruction of past
  windows from noisy observations, as loops and an in-place array filter proved against a specification
  that is then shown ordered, disjoint, covering and evidenced.
- **Auth scheduling** (`RoundRobin`, `AuthCapture`, `AuthCaps`, `AuthFairness`, `AuthDesk`,
  `CaptureAnswers`). The in-memory
  state under one mutex as a class, its steps as a transition relation, the concurrency cap and
  round-robin fairness over all runs.
- **Ending a request** (`HostUsage`, `Settlement`, `StreamLifecycle`, `StreamGate`, `StreamEnds`,
  `StreamRun`). Late usage callbacks against settlement; the stream launch gate against client
  cancellation, as a transition system whose streams, callbacks and store steps interleave over the real
  ledger; and `runStream` itself, return path by return path. Nothing stays held on any of them.
- **Integer pricing** (`Money`, `Tiers`). Ceiling arithmetic under int64 overflow, billing classes, price
  card selection, and the bound between hold and settlement.

The modules named `…Answers` state what the main operations answer in terms of rows, fields, clock and
calendar alone, without the functions the operations are defined by.

Where a promise does not hold on all inputs there is a lemma with a concrete input and the exact
condition under which it does:

- the settled counter after a total reset in the millisecond of a settlement (`StepExact`, `ResetCollision`);
- the total token cap of a key that was never reset (`OneQueryIsFourSums`, `NeverResetTotalUndercounts`);
- coverage of the history under the cap of 400 inferred windows (`HistoryCovers`, `AllowanceHidesARequest`);
- overflow reported for representable costs (`MulDivCeil`, `SpuriousOverflowHappens`);
- callbacks above an auth's limit (`ObserveExceeds`, `CallbackCanExceed`);
- usage callbacks on the parsed path (`ParsedOutcome`, `ParsedPathCanLose`);
- one price card for hold and settlement (`ThresholdSeparatesCards`);
- canceled streams that are never launched (`CancelBeforeGate`, with `StepBlocked` for one step;
  `ForgettingLaunches` and `ForgettingIsReal` for the failures).

Conventions. Times are Unix milliseconds. A step reads the clock once; runs have a nondecreasing clock.
Names are trimmed and case-folded. `Env` carries what the ledger takes from outside: the UTC month start
and glob matching. Generated identifiers are parameters, so a collision is an input and its refusal is
modelled. Auth ids are numbered in the order of their names, 0 being the empty name. Model kinship of a
usage record and a capture is a parameter (`Matcher`).

## Model

| member | source | states |
|---|---|---|
| `LedgerRuns.RunValid` | internal/store/reserve.go:53-195 | In every state reachable by any sequence of store steps: each key's held counter is the sum of its held reservations, settled reservations and ledger rows correspond one to one with equal key and cost, idempotency keys are unique, counters are non-negative |
| `LedgerRuns.StepValid` | internal/store/reserve.go:53-195 | Every single store step, successful or refused, keeps those invariants |
| `LedgerInvariant.HoldValid` | internal/store/reserve.go:161-188 | Holding an amount and inserting the reservation keeps the tables consistent |
| `LedgerInvariant.SettleValid` | internal/store/settle.go:60-98 | Moving a hold to settled spend and writing its ledger row keeps the tables consistent |
| `LedgerInvariant.ReleaseSetValid` | internal/store/reserve.go:354-380 | Releasing any set of held reservations keeps the tables consistent |
| `LedgerInvariant.ReleaseReturnsHolds` | internal/store/reserve.go:354-364 | A release gives each key back exactly the sum of its released holds |
| `LedgerInvariant.RepriceValid` | internal/store/usage.go:264-316 | Repricing a row keeps the reservation's settled amount equal to the row's cost and every other invariant |
| `LedgerInvariant.RejectValid` | internal/store/attempt.go:48-91 | A rejected attempt adds a settled reservation and its row without touching any counter invariant |
| `LedgerInvariant.KeysValid` | internal/store/spend_reset.go:161-187 | Key changes that keep owners and held counters, spend resets among them, keep all invariants |
| `LedgerInvariant.HoldClampIsDead` | internal/store/reserve.go:354-364 | In a consistent state held >= the released amount, so the ELSE 0 branch of the clamp is never taken |
| `LedgerInvariant.HeldNonNegative` | internal/store/reserve.go:354-364 | In a consistent state no held counter is negative |
| `LedgerInvariant.HeldHasNoRow` | internal/store/settle.go:49-58 | A reservation that is not settled has no ledger row, so the unique index on reservation_id cannot refuse its settlement |
| `StoreAnswers.SettleAnswers` | internal/store/settle.go:31-112 | Every answer of Settle, and for a held reservation the key, the reservation and the row it leaves, field by field |
| `StoreAnswers.ReleaseAnswers` | internal/store/reserve.go:297-323 | Every answer of Release, and for a held reservation the hold returned to its key and the status and stamp it gets |
| `StoreAnswers.BatchAnswers` | internal/store/reserve.go:327-352 | Pairwise distinct held ids are all released, each key getting back the sum of its holds among them; any other batch changes nothing |
| `StoreAnswers.StaleAnswers` | internal/store/reserve.go:384-437 | The stale release does the same to exactly the holds last touched before the deadline |
| `StoreAnswers.MarkAnswers` | internal/store/execution.go:11-22 | Touching stamps only a held reservation, and finishing marks only a held one that is not marked |
| `StoreAnswers.RepriceAnswers` | internal/store/usage.go:247-319 | Every answer of a reprice: new tokens and cost on the row, which is no fallback any more, the reservation follows a changed cost, and the key follows unless its total was reset after the row, never below 0 |
| `StoreAnswers.RepriceMovesTokens` | internal/store/usage.go:264-291 | The tokens counted for a pattern since a start change by the difference exactly where the row counts |
| `StoreAnswers.ResetAnswers` | internal/store/spend_reset.go:104-187 | Every answer of a spend reset: the chosen stamps of the named keys, or of all keys not revoked, and the settled total with the total scope alone |
| `StoreAnswers.RejectAnswers` | internal/store/attempt.go:25-100 | Every answer of a rejected attempt, and the settled reservation and zero row it leaves |
| `LedgerSteps.StepHasEffect` | internal/store/reserve.go:53-195 | Every step equals one of ten table effects whose preconditions hold; a hold happens only after every check of Reserve passed |
| `LedgerRuns.RunProgress` | internal/store/settle.go:49-58 | Over any run nothing is deleted, owners never change, status only moves held to settled or held to released, and a finished execution stays finished |
| `LedgerRuns.ReplayedReserve` | internal/store/reserve.go:67-76 | After any further steps, reserving with the same idempotency key changes nothing and returns the first reservation, or a conflict exactly when estimate, amount or key differ |
| `LedgerRuns.RepeatedSettle` | internal/store/settle.go:49-58 | After any further steps, settling a settled reservation succeeds and changes nothing, releasing it fails |
| `LedgerRuns.RepeatedRelease` | internal/store/reserve.go:306-315 | After any further steps a released reservation is unchanged, releasing it again succeeds, settling it fails |
| `LedgerRuns.RunRevoked` | internal/store/reserve.go:105-107 | Revocation is final: over any run a revoked key stays revoked and gets no new held reservation |
| `LedgerRuns.TouchSurvivesStaleRelease` | internal/store/reserve.go:384-452 | A hold touched at or after the deadline survives the stale release; any other is released exactly when it was last updated before it |
| `LedgerRuns.RunTimed` | internal/store/reserve.go:125-125 | With a nondecreasing clock no stored time stamp ever lies in the future: when a reservation was created, updated or finished, when a row was written, when a key was reset |
| `Ledger.BatchSucceeds` | internal/store/reserve.go:327-352 | Batch release goes through if and only if its ids are pairwise distinct held reservations |
| `Ledger.WinnerUnique` | internal/store/model_token_limits.go:161-185 | At most one policy can win for a model |
| `Ledger.WinnerExists` | internal/store/model_token_limits.go:161-185 | If some policy matches a model there is a winning one |
| `LedgerBounds.EffectDrift` | internal/store/usage.go:292-308 | Every step keeps the difference between a key's counted ledger cost and its settled counter, except a total reset, which sets it to the cost stamped at or after the reset, and a clamping reprice, which lowers it |
| `LedgerBounds.RunNeverAbove` | internal/store/spend_reset.go:161-175 | With a nondecreasing clock settled spend never exceeds the ledger cost since the last total reset, in any run |
| `LedgerBounds.StepExact` | internal/store/spend_reset.go:161-175 | From an exact state a step stays exact if and only if every key it totally resets has no priced row in the reset's own millisecond or later |
| `LedgerBounds.EffectExact` | internal/store/usage.go:292-303 | From an exact state the 0 branch of the reprice clamp is never taken |
| `LedgerBounds.RunExact` | internal/store/settle.go:62-67 | Settled spend equals the ledger cost since the last total reset in every run whose total resets meet that condition |
| `LedgerBounds.LaterResetIsClean` | internal/store/spend_reset.go:140-150 | A total reset strictly later than everything stored meets that condition |
| `LedgerBounds.ResetCollision` | internal/store/spend_reset.go:161-175 | The exception is real: a settlement and a total reset in one millisecond leave the counter 5 below the ledger, and repricing that row then clamps |
| `LedgerBounds.OneSettlementIsExact` | internal/store/settle.go:62-67 | The state the exception starts from is consistent, dated and exact |
| `LedgerBounds.RepriceClampIsDead` | internal/store/usage.go:295-299 | The clamp can only fire for a key whose counter is already below its ledger |
| `LedgerLimits.QuotaDecides` | internal/store/reserve.go:164-178 | A request the key would take without a total quota is refused exactly when less than its amount remains; an accepted one leaves a non-negative remainder |
| `ReserveAnswers.ReserveAnswers` | internal/store/reserve.go:67-195 | What Reserve answers, over rows and calendar: a new request of a known caller and key is refused with the error of the first of fourteen checks that fails (revoked, disabled, expired, model, four token caps, slots, three spend limits, quota, id), and otherwise holds exactly its amount |
| `ReserveAnswers.SpendLimitsDecide` | internal/store/reserve.go:141-160 | A request that passes the checks before them is refused for the daily, weekly or monthly limit exactly when that is the first one exceeded by rows plus holds since the UTC midnight, the Monday midnight or the month start (or a later reset of that limit) plus the amount |
| `ReserveAnswers.FailureIsFirst` | internal/store/reserve.go:67-195 | The error is that of a check that fails while all before it pass |
| `ReserveAnswers.StrangersAreRefused` | internal/store/reserve.go:53-104 | Malformed requests, unknown and disabled callers and foreign keys are refused with their own errors and change nothing |
| `LedgerLimits.RunOverdraft` | internal/store/settle.go:60-67 | With a positive, never lowered total quota a key is overdrawn by at most its initial deficit plus the sum of over-settlements and upward reprices of the run |
| `LedgerLimits.OverdraftPerSettlement` | internal/store/settle.go:60-67 | If every settlement stays within a slack of its hold and no reprice raises a row, the overdraft is at most slack times the number of settlements |
| `LedgerLimits.EffectDeficit` | internal/store/usage.go:292-308 | One step raises the deficit by no more than its own over-settlement or upward reprice |
| `LedgerLimits.RunPeriodBound` | internal/store/reserve.go:141-160 | Within one calendar period with a positive, never lowered limit, settled plus held spend exceeds the limit by at most the initial excess plus over-settlements of in-period holds, full costs of settling older holds and upward reprices of in-period rows |
| `LedgerLimits.EffectExcess` | internal/store/reserve.go:141-160 | One step adds to a period's excess no more than its own charge; a new hold adds nothing |
| `LedgerLimits.SpendShrinks` | internal/store/spend_reset.go:33-38 | Moving a period's start forward, by rollover or by a reset, never raises the counted spend |
| `LedgerLimits.ResetOnlyAdvances` | internal/store/spend_reset.go:161-175 | A spend reset only moves a period's effective start forward |
| `LedgerLimits.AdmittedHold` | internal/store/reserve.go:80-178 | A hold is only made for an enabled caller, a live, enabled, unexpired key and an allowed model, with room in the total quota, every period limit, the request slots and the token caps |
| `LedgerLimits.ResetRestarts` | internal/store/spend_reset.go:101-104 | A reset later than everything stored starts exactly the selected periods over at zero, clears the settled total only with the total scope, and never touches holds |
| `LedgerLimits.RolloverClears` | internal/store/reserve.go:252-261 | A period that begins after everything stored begins with nothing spent |
| `LedgerLimits.FreshPeriodBound` | internal/store/reserve.go:141-160 | A period entered after its boundary exceeds its limit by the charges of its own steps alone |
| `LedgerSlots.RunCrowd` | internal/store/reserve.go:130-140 | With a positive, never lowered maximum, held and unfinished reservations of a key never exceed it |
| `LedgerSlots.FreedSlotStaysFree` | internal/store/execution.go:11-22 | A freed request slot is never occupied again by the same reservation, whatever follows |
| `LedgerSlots.FinishFreesOnlyTheSlot` | internal/store/execution.go:11-22 | FinishExecution lowers the active count by one exactly when the reservation was active, and leaves keys, rows, held sums, period sums, drift and deficit unchanged |
| `Calendar.DayStartIsMidnight` | internal/store/reserve.go:263-266 | The day start is the only UTC midnight in the 24 hours up to now |
| `Calendar.WeekStartIsMonday` | internal/store/reserve.go:268-272 | The week start is the only UTC Monday midnight in the seven days up to now |
| `Calendar.SamePeriod` | internal/store/reserve.go:263-272 | All instants of one day or week share one period start |
| `TokenCaps.WinnerMatches` | internal/store/model_token_limits.go:161-185 | The winning policy matches the model, is the exact name when there is one and otherwise a longest matching pattern |
| `TokenCaps.OneQueryIsFourSums` | internal/store/model_token_limits.go:250-295 | The pre-filtered query equals four independent sums: the calendar periods always, the total exactly when it hides no counted tokens, and always once a total reset exists |
| `TokenCaps.SeenPlusHidden` | internal/store/model_token_limits.go:255-275 | A query from a start date counts a period in full if and only if no matching tokens lie between the period's start and that date |
| `TokenCaps.LimitPasses` | internal/store/model_token_limits.go:227-247 | A policy lets an estimate pass if and only if every cap still has room for it |
| `TokenCaps.CapsHoldAfterReserve` | internal/store/model_token_limits.go:205-248 | After a successful reserve, settled tokens plus in-flight estimates of all models sharing the winning pattern are within each daily, weekly and monthly cap, and within the total cap once a total reset exists |
| `TokenCaps.NeverResetTotalUndercounts` | internal/store/model_token_limits.go:255-260 | Without a total reset the total cap is not enforced: in a consistent state where a key whose policy caps a model at 5 tokens has 10 settled, the next reserve still succeeds |
| `TokenQuery.MatchModelTokenLimit` | internal/store/model_token_limits.go:161-185 | The scan returns the winning policy, and none exactly when no policy matches |
| `TokenQuery.EnforceModelTokenLimits` | internal/store/model_token_limits.go:205-248 | For any estimate, negative ones clamped to 0, the grouped totals, merges and the period loop refuse with the same error as the specification over individual rows |
| `TokenQuery.GroupByModel` | internal/store/model_token_limits.go:262-270 | One pass of the four-column grouped query: in each column, the groups that share a pattern sum to the individual rows of that period |
| `TokenQuery.LoadTotals` | internal/store/model_token_limits.go:250-295 | The two grouped queries and their merge give, for each of the four periods, settled plus held tokens since its start |
| `TokenQuery.ScanStart` | internal/store/model_token_limits.go:255-260 | The scan begins no later than any calendar period and no later than an existing total reset |
| `Store.Store.Reserve` | internal/store/reserve.go:53-195 | The transaction computes the specified reserve: same checks in the same order, same error, same new tables |
| `Store.Store.PeriodLimit` | internal/store/reserve.go:141-160 | The loop over the three calendar limits reports the first exceeded one |
| `Store.Store.Existing` | internal/store/reserve.go:67-76 | The idempotency lookup finds the only reservation of that caller and key, if any |
| `Store.Store.Settle` | internal/store/settle.go:31-112 | The transaction, clamp included, computes the specified settlement |
| `Store.Store.Release` | internal/store/reserve.go:297-323 | The transaction, clamp included, computes the specified release |
| `Store.Store.ReleaseHeldReservations` | internal/store/reserve.go:327-352 | The loop releases all ids or nothing, and reports the failure of the first id that cannot be released |
| `Store.ReleaseBatchTx` | internal/store/reserve.go:336-351 | Releasing id by id with the clamp equals recounting all holds at once |
| `Store.Store.ReleaseStaleReservations` | internal/store/reserve.go:384-437 | Exactly the held reservations not touched since the deadline are released and counted |
| `Store.ReleaseHeldTx` | internal/store/reserve.go:354-380 | The clamped update of one hold equals recounting every key's holds |
| `Store.Store.TouchReservation` | internal/store/reserve.go:439-452 | Touches only a held reservation and otherwise reports it finalized |
| `Store.Store.FinishExecution` | internal/store/execution.go:11-22 | Marks a held reservation once and succeeds also when there is nothing to mark |
| `Store.Store.UpdateUsageDetail` | internal/store/usage.go:247-319 | The transaction, clamp included, computes the specified reprice |
| `Store.Store.ResetPluginKeySpend` | internal/store/spend_reset.go:104-150 | Duplicate ids count once and an unknown id abandons the whole reset |
| `Store.Store.InsertRejectedAttempt` | internal/store/attempt.go:25-100 | Computes the specified rejected attempt, ownership errors included |
| `Store.Store.KeyPeriodSpend` | internal/store/reserve.go:252-261 | Returns settled rows plus current holds since the start |
| `Money.MulDivCeil` | internal/money/money.go:270-294 | Succeeds exactly when neither the ceiling nor the remainder product leaves int64, and then equals the mathematical ceiling; no intermediate wraps |
| `Money.NoSpuriousOverflow` | internal/money/money.go:270-294 | With a multiplier up to MaxInt64/(divisor-1) the only overflow reported is a real one |
| `Money.SpuriousOverflowHappens` | internal/money/money.go:280-290 | Above that bound a representable result is refused: a concrete case |
| `Money.SaturatingAdd` | internal/money/money.go:257-268 | Adds the non-negative parts and stops at MaxInt64 |
| `Money.BillableConservesPrompt` | internal/money/money.go:165-187 | With cache counted inside the input, billable input plus cache read plus cache creation is the larger of input and cache total; otherwise it is the plain sum |
| `Money.Cost` | internal/money/money.go:199-239 | The loop with early exits returns the summed rounded class costs, or overflows exactly when a class or the sum does |
| `Money.CostPerImage` | internal/money/money.go:241-255 | Images times price, refused exactly when it leaves int64 or an operand is negative |
| `Money.CostFor` | internal/money/money.go:191-197 | Cost under the accounting mode inferred from the model |
| `Money.ChargeIsRoundedSum` | internal/money/money.go:199-239 | A successful token charge is the sum of four rounded classes, each at its own price: prompt, output, cache reads and cache writes, with the fallbacks to the legacy cached fields and the prompt reduced by the cache where it is counted inside; any refusal is an overflow |
| `Money.ChargeIsExactUpToRounding` | internal/money/money.go:199-239 | A successful charge times 10^6 is at least the exact weighted sum of those four classes and less than 4*10^6 above it |
| `Money.CostIsCostFor` | internal/money/money.go:191-213 | Cost alone counts cache inside the input unless the card excludes it, and refuses an unknown mode |
| `Money.MalformedIsRefused` | internal/money/money.go:199-206 | A negative token count or price and an unknown billing mode are refused with their own errors, in that order |
| `Money.ImagesAreCharged` | internal/money/money.go:241-255 | A per-image card charges the images, at least one, times the image price |
| `Money.ChargeRefusedOnlyOnOverflow` | internal/money/money.go:199-239 | With prices up to MaxInt64/999999 a charge is refused if and only if the rounded sum of the four classes leaves int64 |
| `Money.PositiveUsageIsCharged` | internal/money/money.go:222-235 | A charge with tokens in any class that has a price is positive |
| `Tiers.SelectPrice` | internal/money/tiers.go:98-129 | Two scans return the unique card selected by: first matching service card, else earliest card of the highest reached threshold, else base |
| `Tiers.SelectedUnique` | internal/money/tiers.go:98-129 | That selection rule leaves exactly one card |
| `Tiers.OverlayReplacesSetRates` | internal/money/tiers.go:150-171 | A tier replaces exactly the rates it sets, and neither the accounting mode nor the image price |
| `Tiers.PromptSize` | internal/money/tiers.go:81-96 | The size compared with a threshold: input plus cache, saturating, where cache is counted beside the input, else the input, else the cache of a usage without input |
| `Tiers.ServiceTiers` | internal/money/tiers.go:137-148 | Keeps exactly the service cards, in order |
| `Tiers.FilterKeepsServiceCard` | internal/money/tiers.go:137-148 | Filtering to service cards does not change which service card applies |
| `Tiers.HoldAndSettlementUseOneCard` | internal/service/reserve.go:107-112 | Below every context threshold the hold and the settlement of a request select the same card |
| `Tiers.ThresholdSeparatesCards` | internal/service/reserve.go:107-112 | Without a matching service card a token-priced request settles under the card it was held under if and only if its actual prompt reaches no threshold or the best card it reaches overlays nothing |
| `Tiers.SettlementWithinHold` | internal/service/reserve.go:186-196 | Usage within the estimates at cache prices no higher than the input price costs at most the hold plus one micro-dollar per cache class present |
| `Tiers.SettlementVersusHold` | internal/service/reserve.go:107-112 | From plan to settlement: at most two micro-dollars above the hold, and nothing above it without cache tokens |
| `Tiers.TwoIsReached` | internal/service/reserve.go:186-196 | The bound of two is attained on the whole path from plan to settlement |
| `QuotaObservations.MergeObs` | internal/service/auth_quota_history.go:162-173 | The sort-and-fold loop over the output slice computes the merge |
| `QuotaObservations.MergedProperties` | internal/service/auth_quota_history.go:162-206 | Merged starts lie more than two minutes apart; every observation has a representative of no lower rank nearby, and every entry has a source |
| `QuotaObservations.FoldKeepsReadings` | internal/service/auth_quota_history.go:186-206 | Folding never lowers the kept use, moves a first sighting together with its use and only to an earlier one, and leaves plan-history entries alone |
| `QuotaObservations.MergedReadings` | internal/service/auth_quota_history.go:162-206 | Every use and every first sighting that comes out of a merge was observed |
| `QuotaObservations.PlanHistoryWins` | internal/service/auth_quota_history.go:175-206 | A plan-history observation is never displaced by a lower-ranked one |
| `HistoryAnswers.PairMerges` | internal/service/auth_quota_history.go:162-173 | Two observations are folded exactly when their starts lie at most two minutes apart |
| `HistoryAnswers.FoldAnswers` | internal/service/auth_quota_history.go:175-206 | What a fold keeps of both, field by field: the higher rank, the first on a tie, with the other one's description, later higher use and earlier sighting where they apply |
| `QuotaObservations.RepairPlaceholders` | internal/service/auth_quota_history.go:87-107 | The in-place filter over the shared array computes the repaired list and the sync boundaries |
| `QuotaObservations.RepairedWellFormed` | internal/service/auth_quota_history.go:87-107 | Every entry that comes out was an ordinary observation or is a placeholder whose start is the earliest request between its sync and the earlier of its schedule and now, scheduled to end its own duration later |
| `QuotaObservations.NoPlaceholderSurvives` | internal/service/auth_quota_history.go:87-107 | No placeholder survives unrepaired, nothing else is dropped, and every placeholder leaves its sync time as a boundary |
| `HistoryAnswers.RepairAnswers` | internal/service/auth_quota_history.go:84-107 | What the repair keeps: an observation that is plan history, was in use when first seen or was first seen more than two minutes from its start comes out unchanged without a boundary; every other one comes out only as started by the first request after its sighting, and leaves its sighting as a boundary |
| `QuotaHistory.BuildHistory` | internal/service/auth_quota_history.go:54-135 | The whole pipeline of loops returns the specified history |
| `HistoryAnswers.ReportedWindow` | internal/service/auth_quota_history.go:54-132 | A single observation that was in use when first seen is shown as reported, followed by the inferred windows, whatever was used later |
| `HistoryAnswers.UnusedUntilRequest` | internal/service/auth_quota_history.go:84-107 | A single observation first seen unused near its start is replaced by the window its first request opened, and its sighting is a boundary |
| `HistoryAnswers.UnusedWithoutRequest` | internal/service/auth_quota_history.go:84-107 | Without such a request it leads to no window and still to the boundary |
| `HistoryAnswers.EmptyObservation` | internal/service/auth_quota_history.go:75-81 | A single observation that ends before it starts leads to nothing |
| `QuotaHistory.HistoryOrdered` | internal/service/auth_quota_history.go:51-53 | For any observations and any ledger: non-empty windows, strictly start-ordered, pairwise disjoint |
| `QuotaHistory.HistorySortIsIdentity` | internal/service/auth_quota_history.go:133-134 | The final sort changes nothing |
| `QuotaHistory.HistoryCovers` | internal/service/auth_quota_history.go:84-159 | A ledger request before now lies in exactly one window of the history if and only if it lies in the observed window in force, or fewer than 400 windows opened by requests of the gap after it end before the request |
| `QuotaHistory.ObservedContains` | internal/service/auth_quota_history.go:110-124 | An instant after an observation starts lies in its window exactly when it precedes the schedule, the next observation and every sync boundary after the start |
| `QuotaHistory.NothingBeforeFirst` | internal/service/auth_quota_history.go:84-135 | No window contains an instant before the first settled observation |
| `QuotaHistory.FewRequestsAreCovered` | internal/service/auth_quota_history.go:137-159 | With at most 400 distinct request times every request from the first settled observation up to now lies in exactly one window |
| `QuotaHistory.InferCovers` | internal/service/auth_quota_history.go:137-159 | A request in a gap is covered if and only if fewer windows than the allowance end before it, the windows being counted from the requests alone |
| `QuotaHistory.WindowsNeedRequests` | internal/service/auth_quota_history.go:137-159 | Fewer windows precede a request than there are distinct requests in the gap |
| `QuotaHistory.AllowanceHidesARequest` | internal/service/auth_quota_history.go:84-159 | The cap of 400 can hide a request: a history built from one raw five-hour observation and 401 requests leaves the last one uncovered |
| `QuotaHistory.InferGapWindows` | internal/service/auth_quota_history.go:137-159 | The probe-append-advance loop computes the specified inferred windows and ends |
| `QuotaHistory.InferOrdered` | internal/service/auth_quota_history.go:137-159 | Inferred windows tile the gap in order and stay inside a bounded gap |
| `QuotaHistory.HistoryEvidence` | internal/service/auth_quota_history.go:110-132 | Every window shows a settled observation with its schedule, reading and source, cut by no sync boundary inside it, or is inferred after one, for its duration and without a reading, from a ledger request |
| `QuotaHistory.ClipToBoundaries` | internal/service/auth_quota_history.go:111-124 | The boundary loop ends the window at the earliest boundary inside it |
| `QuotaHistory.EndedWindows` | internal/service/auth_quota_history.go:405-426 | The clipping loop of a family computes the specified ended windows |
| `QuotaHistory.AppliedHistory` | internal/service/auth_quota_history.go:405-426 | Added windows are over, non-empty, pairwise disjoint, stop before every current upstream window with known bounds, and number at most eight |
| `HistoryAnswers.EndedAnswers` | internal/service/auth_quota_history.go:405-426 | The ended windows are exactly those built windows that, cut at the earliest known start of a current one, are over and not empty |
| `HistoryAnswers.LatestAnswers` | internal/service/auth_quota_history.go:422-424 | Up to eight windows are shown, and of more the last eight |
| `QuotaHistory.LatestKeepsNewest` | internal/service/auth_quota_history.go:422-424 | Whatever the limit of eight drops is older than everything kept |
| `RoundRobin.BoundedWaiting` | internal/service/auth_concurrency.go:431-449 | Whatever the candidate sets do, an auth offered on every call is picked at least once in any N consecutive picks, N being the number of distinct auths ever offered |
| `RoundRobin.FixedSetPermutes` | internal/service/auth_concurrency.go:431-449 | On a fixed set of n auths any n consecutive picks are a permutation |
| `RoundRobin.KeysAreIndependent` | internal/service/auth_concurrency.go:434-440 | While at most 4096 keys are in use, interleaved calls leave each key rotating on its own |
| `RoundRobin.WipeRestarts` | internal/service/auth_concurrency.go:437-440 | The wipe of a full table restarts a key's rotation: a concrete case |
| `RoundRobin.NextAuthPick` | internal/service/auth_concurrency.go:435-449 | The binary search returns the smallest offered id above the last pick, or the smallest of all |
| `RoundRobin.HighestTier` | internal/service/auth_concurrency.go:35-52 | Two loops return the candidates of the highest priority in order |
| `RoundRobin.TierProperties` | internal/service/auth_concurrency.go:35-52 | The tier is exactly the candidates that no other candidate outranks |
| `AuthFairness.SchedulerIsFair` | internal/service/auth_concurrency.go:206-315 | Over any run of the scheduler with everything else interleaved, an auth in the best available tier of every rotating pick of a key is picked at least once in any N of them |
| `AuthFairness.RotatingPick` | internal/service/auth_concurrency.go:304-305 | The auth a rotating pick returns is the next one of its key |
| `AuthFairness.RunRotates` | internal/service/auth_concurrency.go:291-315 | The picks of a run are those of its rotating calls alone; no other step touches the rotation |
| `AuthCaps.RunCapped` | internal/service/auth_concurrency.go:153-174 | With fixed limits, active captures plus warmup holds of a limited auth never exceed its limit (or the initial count) plus one per callback that attributed it to a request in flight |
| `AuthCaps.CapHolds` | internal/service/auth_concurrency.go:468-491 | From an idle start and without such callbacks the limit is never exceeded |
| `CaptureAnswers.AdmissionAnswers` | internal/service/auth_concurrency.go:153-174 | An auth is refused exactly when it has a limit and the number of other requests on it plus the warmups that hold it reach the limit; an admitted request carries the auth |
| `CaptureAnswers.UsableAnswers` | internal/service/auth_concurrency.go:229-243 | A candidate may be picked exactly when it has a name, is not disabled, no warmup holds it and it is not full |
| `CaptureAnswers.WarmupAnswers` | internal/service/auth_warmup.go:521-540 | A warmup takes an auth exactly when no request and no warmup is on it |
| `AuthCaps.StepCapped` | internal/service/auth_concurrency.go:368-405 | Admission, fresh, sticky, retry and oldest-unattributed picks, finish, cancel, settlement, pruning and warmups keep the cap |
| `AuthCaps.ObserveCount` | internal/service/auth_capture.go:68-113 | A callback raises the count of an auth by at most one, and by exactly one when it attributes and nothing expires |
| `AuthCaps.ObserveExceeds` | internal/service/auth_capture.go:68-113 | From a count within a limit, a callback exceeds the limit if and only if it attributes to that auth a request in flight and the captures that have not expired already fill the limit |
| `AuthCaps.CallbackCanExceed` | internal/service/auth_capture.go:89-92 | The exception is real: a callback puts two active requests on an auth limited to one |
| `AuthCaps.ChosenIsAvailable` | internal/service/auth_concurrency.go:206-315 | The chosen auth is always available and, without a live session binding, of the highest available priority |
| `CaptureAnswers.PickAnswers` | internal/service/auth_concurrency.go:206-249 | The scheduler leaves an empty list to the host, reports a full one exactly when no candidate may be picked, and picks otherwise |
| `CaptureAnswers.FillFirstPicksFirst` | internal/service/auth_concurrency.go:291-295 | Without a session fill-first picks the first name among the candidates of the highest available priority |
| `CaptureAnswers.LeastBusyPicksLeast` | internal/service/auth_concurrency.go:296-303 | Without a session least-busy picks the least loaded of them, the first name on a tie |
| `CaptureAnswers.RotationAnswers` | internal/service/auth_concurrency.go:431-449 | Without a session round robin picks the first of them after the last pick under their provider and the model, or the first of all, and remembers it; a new key at a table of 4096 wipes it |
| `AuthCaps.LeastBusyIsLeast` | internal/service/auth_concurrency.go:296-303 | The least-busy strategy picks a candidate with the fewest requests in flight |
| `AuthCaps.PickRotates` | internal/service/auth_concurrency.go:304-305 | A round-robin pick without affinity serves the rotation over the best available tier |
| `AuthCaps.BoundSessionStays` | internal/service/auth_concurrency.go:244-288 | While a session binding is live and its auth available, the pick is that auth whatever the strategy, the tiers and the other candidates |
| `CaptureAnswers.SessionDecides` | internal/service/auth_concurrency.go:250-290 | A session gets the auth of its primary binding while that is live and available, else that of its fallback binding, else one of the top candidates |
| `CaptureAnswers.SessionIsBound` | internal/service/auth_concurrency.go:307-312 | After a pick both session keys name the picked auth until the idle time runs out and no other binding changed, while the table has room |
| `CaptureAnswers.BindingAnswers` | internal/service/auth_concurrency.go:407-423 | A new key at a table of 65536 bindings first drops the expired ones, and all if that is not enough |
| `CaptureAnswers.NoSessionBindsNothing` | internal/service/auth_concurrency.go:250-290 | A request without a session key binds nothing |
| `AuthCaps.PickBindsSession` | internal/service/auth_concurrency.go:307-312 | Every pick leaves both the primary and the fallback key of the session bound to the picked auth until the idle time runs out, while the binding table has room |
| `AuthDesk.AuthDesk.PickAuthForRequest` | internal/service/auth_concurrency.go:206-315 | The filter, sort, affinity, tier and strategy code performs the specified pick and attribution |
| `AuthDesk.AuthDesk.BindOldestUnattributed` | internal/service/auth_concurrency.go:387-405 | The scan binds an active unattributed capture of minimal start time, if there is one |
| `AuthDesk.AuthDesk.AdmitAuth` | internal/service/auth_concurrency.go:153-174 | Admits and binds exactly when the other requests on the auth leave room |
| `AuthDesk.AuthDesk.ObserveHostUsage` | internal/service/auth_capture.go:68-113 | Matches the best capture, fills what is missing, and hands out the ledger id when the row exists |
| `AuthDesk.AuthDesk.PickPending` | internal/service/auth_capture.go:163-196 | Returns an eligible capture no other eligible one beats; a loose match among several lies within 45 seconds |
| `CaptureAnswers.CallbackLandsOnClosest` | internal/service/auth_capture.go:163-240 | A callback lands on a capture that lacks what it brings: one of its model, else the only one, else one within 45 seconds, and among those one that started closest to the request, earliest on a tie or when the request time is unknown; on none exactly when there is none |
| `CaptureAnswers.CallbackFills` | internal/service/auth_capture.go:68-113 | It fills the missing auth and usage of that capture and nothing else, hands out the ledger id, and drops a capture complete by then |
| `CaptureAnswers.SettlementHearsCallback` | internal/service/auth_capture.go:232-240 | The usage a callback filled in is the one the settlement finds |
| `AuthDesk.AuthDesk.SettlementAuth` | internal/service/auth_capture.go:358-389 | Drops a complete capture, otherwise publishes the ledger id |
| `AuthDesk.AuthDesk.AcquireAuthWarmup` | internal/service/auth_warmup.go:521-540 | Holds the auth only when it is idle |
| `AuthDesk.AuthDesk.ReleaseAuthWarmup` | internal/service/auth_warmup.go:542-549 | Removes exactly the hold of that run |
| `AuthDesk.AuthDesk.TrackAuthCapture` | internal/service/auth_capture.go:35-54 | Prunes captures older than 15 minutes and opens an active unattributed one |
| `HostUsage.NoLostUsage` | internal/service/reserve.go:214-269 | On the fallback path, for every interleaving of settlement and callbacks, the finished row carries the usage of a matched callback, or the fallback if there was none |
| `HostUsage.SingleCallbackWins` | internal/plugin/usage.go:38-60 | With one matched callback the row carries exactly its usage |
| `HostUsage.StepKept` | internal/service/reserve.go:229-268 | Each locked section or store call keeps: matched usage waits in the capture, is in the row, or is on its way |
| `HostUsage.ParsedOutcome` | internal/service/reserve.go:350-363 | Where the response carried usage, that usage stands unless a callback updates the row after it was committed |
| `HostUsage.ParsedPathCanLose` | internal/service/reserve.go:360-361 | Two concrete interleavings in which a callback is lost on the parsed path |
| `StreamGate.StepBlocked` | internal/plugin/request_lifecycle.go:51-90 | A step keeps a canceled request blocked if and only if the stream was turned away already or the step forgets no cancel: no re-tracking, no ordinary completion, no pruning of its unbound entry |
| `StreamGate.CancelBeforeGate` | internal/plugin/request_lifecycle.go:51-90 | Once a cancel is recorded before the gate, the request is blocked in every state of a run if and only if no step of the run forgets the cancel, and then upstream is never launched for it |
| `StreamEnds.CancelBlocks` | internal/plugin/request_lifecycle.go:102-131 | A cancel callback that finds the entry before the gate establishes that block |
| `StreamEnds.ForgettingLaunches` | internal/plugin/request_lifecycle.go:51-90 | In any consistent state each forgetting step leaves a reserved stream with a pending cancel able to go on to the upstream call |
| `StreamEnds.StreamsFinalize` | internal/plugin/execute.go:141-296 | In every state reachable from the empty one by interleaving streams, callbacks and store steps, the reservation of a stream that returned is settled or released in the ledger and occupies no slot, no stream launched without one, and no client slot is freed twice |
| `StreamEnds.ReservationKept` | internal/plugin/execute.go:141-296 | A stream keeps the reservation it made for the rest of any run, and one that returned stays returned |
| `StreamEnds.RunConsistent` | internal/plugin/execute.go:141-296 | In every reachable state reservations, launches, slot releases and lifecycle entries of all streams agree with the ledger |
| `StreamEnds.ForgettingIsReal` | internal/plugin/request_lifecycle.go:142-149 | Each of the three ways to forget is real: from the empty state, with a caller and a key created, a tracked stream reserves, its client cancels, the step forgets, and the stream launches |
| `StreamRun.Plugin.RunStream` | internal/plugin/execute.go:141-296 | From the reserve on: a refused reserve leaves only a rejected attempt; otherwise the stream returns by the path that the lifecycle table, admission and the host determine, the hold ends as that path leaves it (a zero row if not launched, else host usage, the usage of a response read to an end, or the policy, with its exact tokens and cost), and the lifecycle entry is gone |
| `StreamRun.FreshHold` | internal/plugin/execute.go:153-157 | A reserve that met no earlier reservation made the hold that the stream ends |
| `StreamRun.Plugin.Execute` | internal/plugin/execute.go:158-296 | Every path from the lifecycle binding on ends the reservation with the row, or none, of that path |
| `StreamRun.Plugin.Admit` | internal/plugin/execute.go:164-171 | A full auth or a closed gate ends the reservation before any launch |
| `StreamRun.Plugin.Launch` | internal/plugin/execute.go:190-212 | A host error, an undecodable reply and an empty stream id end in a zero-cost attempt, an error status in a settlement without parsed usage |
| `StreamRun.Plugin.FailHost` | internal/plugin/execute.go:190-212 | A host call that brings no stream leaves a row of zeros |
| `StreamRun.PhaseMatchesExit` | internal/plugin/execute.go:190-213 | The transition system goes on from each reply of the host as the return paths do |
| `StreamRun.Plugin.ReadStream` | internal/plugin/execute.go:223-295 | The read loop returns on the first read error, bad or error chunk, failed emit or last chunk; the usage parsed from the response counts on all of them but the undecodable chunk, after usage the host reported |
| `StreamLifecycle.StreamLifecycles.TrackStream` | internal/plugin/request_lifecycle.go:36-46 | Prunes and opens a fresh entry |
| `StreamLifecycle.StreamLifecycles.BeginUpstream` | internal/plugin/request_lifecycle.go:75-90 | Refuses exactly when a live entry has a recorded cancel |
| `StreamLifecycle.StreamLifecycles.BindStream` | internal/plugin/request_lifecycle.go:51-69 | Binds the reservation, or removes a canceled entry and says so |
| `StreamLifecycle.StreamLifecycles.CompleteStream` | internal/plugin/request_lifecycle.go:102-131 | Drops the entry on a normal completion; on a cancel records it and names the reservation whose client slot to free, once |
| `StreamLifecycle.StreamLifecycles.PruneExpired` | internal/plugin/request_lifecycle.go:142-149 | Removes exactly the unbound entries at least five minutes old |
| `StreamLifecycle.TrackForgets` | internal/plugin/request_lifecycle.go:36-46 | Tracking a request forgets exactly the other entries that were not bound within five minutes |
| `Settlement.AttemptEnds` | internal/plugin/attempt.go:14-21 | A zero-cost attempt, or the release behind it, always ends a held reservation, returns its hold to the key, records a zero-cost row exactly when a model is named and the row id is free, and touches no other reservation or key |
| `Settlement.UsageEnds` | internal/service/reserve.go:153-196 | Settlement from usage, with the release on error, always ends a held reservation: with host usage before parsed usage and the cost of that usage, with the images of a per-image plan, or with the fallback; it is released exactly when pricing fails, the policy frees requests without usage or the row is refused; nothing is charged for an unpriced plan |
| `Settlement.Service.SettleFromUsage` | internal/service/reserve.go:153-212 | The code over store and auth desk performs the specified choice between host usage, parsed usage, images and the missing-usage policy, and leaves both in the specified state |
| `Settlement.Service.SettleMissingUsage` | internal/service/reserve.go:214-269 | The locked section settles with captured usage if there is one and with the fallback otherwise, and publishes the ledger id on the capture exactly when the row was written |
| `Settlement.Service.SettleZeroCostAttempt` | internal/service/attempt.go:22-54 | Finishes the execution and settles at zero cost under the request's or the reservation's model |
| `Settlement.Service.SettleAttemptOrRelease` | internal/plugin/attempt.go:14-21 | After it the reservation is ended, its hold returned, and the zero-cost row written unless the store refused it |
| `Settlement.Service.EndStream` | internal/plugin/execute.go:286-295 | After it the reservation is ended with exactly the tokens, cost and row due for the captured and parsed usage, the plan and the policy |
| `Settlement.Service.FinishExecution` | internal/service/execution.go:10-18 | Frees the request slot and the auth slot, nothing else |

## Left out

- Ledger counters are unbounded integers: the SQL sums and the counters are not modelled as int64; pricing is.
- SQLite, SQL text, migrations, file locks, cancellation contexts and commit failures: a transaction either commits or changes nothing.
- Audit events, labels, metrics, executor types, upstream model names and service-tier relabelling of rows: they carry no invariant.
- TokenCaps.CapsHoldAfterReserve: does not claim the total cap for a key without a total reset, because the code overwrites a scan start of 0 with the calendar starts (`internal/store/model_token_limits.go:255-260`); the counterexample is proved.
- ReserveAnswers.ReserveAnswers: assumes a clock after 1970-01-05, since the token query takes a period start of 0 for "not set".
- Store.Store.Reserve: does not generate reservation ids; the id is a non-empty parameter and a taken one is refused.
- Key creation, policy changes, revocation and caller changes are steps of the transition system but have no method on the class; key rotation is not modelled.
- LedgerLimits.RunPeriodBound: speaks of runs inside one calendar period; crossing a boundary is covered by `RolloverClears` and `FreshPeriodBound`. The clock starts at 0 or later, since a missing reset time counts as 0.
- The UTC month start is a parameter; day and week starts are computed.
- Retention and deletion of history, and waiting on the condition variable for host usage (`WaitForHostUsage`).
- QuotaHistory.BuildHistory: overflow of durations beyond int64 nanoseconds is not modelled, the probe is a list of request times and a probe error counts as no request; used ratios are compared as integers.
- QuotaHistory.EndedWindows: models one window family with a recent template; choosing templates, `sameDurationObservations`, legacy families and the conversion of windows for display are not modelled.
- Provider quota collectors, forecasts and float ratios: shape matching and floating point.
- Money.CostFor: takes whether the model or provider names Claude as a parameter instead of matching the strings.
- Building a plan (price, token estimate, image count) from a request body: it depends on JSON; the settlement takes any plan, per-image and unpriced ones included.
- AuthCapture.Capture values live in a map: the code shares pointers under the mutex, so aliasing outside the map is not modelled. Map iteration order is arbitrary and left open by the specification.
- AuthCaps.RunCapped: limits are fixed during a run; lowering one does not evict requests.
- RoundRobin.BoundedWaiting: promises nothing across a wipe of the 4096-key table; `KeysAreIndependent` gives the condition and `WipeRestarts` the failure.
- HostUsage.NoLostUsage: assumes the callback was matched to the capture, the capture is neither pruned nor canceled, and store calls succeed; the fallback search for recent rows without a capture is not modelled.
- The cost of a late callback: pricing inputs differ between the callback and settlement, so no equality of costs is claimed.
- StreamGate.CancelBeforeGate: excludes entries pruned before they are bound, tracked again or completed normally, as its condition says; `ForgettingIsReal` shows each of the three.
- StreamEnds.StreamsFinalize: assumes one stream per request id and no panics; heartbeats, stale releases and usage callbacks occur as store steps of others, at any time. Host usage captured by the desk is a parameter of the settlement step.
- StreamRun.Plugin.RunStream: begins at the reserve, with the identity resolved and the plan built; it is sequential with one clock reading, so no callback comes between its calls (`StreamGate` interleaves them). Chunk contents, the terminal detector and the usage parsers are part of `Host`; captured upstream model names and closing the host stream are left out.
- JSON, HTTP, host RPC, management routes, web pages, key hashing, configuration, currency and price-list clients.
