# Trading core and market data: a verified model

A Dafny 4.11 model of the two parts of the platform whose claims are about whole
runs. The trading core keeps exact money under concurrent, retried commands: the
account, its positions, orders, deals and ledger (`Books`), the idempotency
protocol, the per-account queue, the numbered risk stream, trailing stops, and
the policy that bounds the state after a trade. The market-data core builds
candles, aggregates, caches, filters and indexes incrementally; each is proved
equal to the simple fold or full recompute that it stands for.

`dafny verify dfyconfig.toml` checks everything.

## How it is modelled

- A Mongo transaction is one atomic step that commits or leaves everything as it
  was; where its body writes before it throws, the body and its rollback are
  apart. Reads outside a transaction are steps of their own. Executors, drains,
  promise callbacks and cache segments interleave freely and may crash.
- Amounts are real numbers. `Decimal`, `DecimalDivision` and `DecimalText` prove
  that the decimal strings of the source compute with exactly those numbers,
  rounding included; the other modules build on that.
- A document's identity is its index in its collection. One account is modelled;
  the unique indexes that matter (client order ids, ledger keys, idempotency
  keys, risk event keys) refuse duplicates as the database does.
- What comes from outside is a parameter: clocks, quotes, the volume-adjusted
  execution price, day keys, sessions, hash values (taken as injective).
- A class stands where the source updates an object in place; its methods are
  proved against the functions that the run-wide lemmas are about.
- What a single operation answers and records is stated on the fields of its
  inputs, apart from the functions its body is made of (`TradeGates`,
  `PlacementGates`, `TradeRecords`, `Exposures`, `BalanceMutations`,
  `AccountSwitches`, `StopRules`, `CandleGaps`, `CanonicalBars`, and lemmas named ...Iff elsewhere).

| files | source |
|---|---|
| Decimal, DecimalDivision, DecimalText | shared/decimal/decimal.js |
| TradingTypes, RiskPolicy, ExecutionPlanner, PendingPlanner, Conversion, ValuationCalculator, ProfitAndLoss | the planners, policies and calculators of modules/trading |
| Books, AccountDocuments, Reconciliation, DealAccounting, MarginRelease, OrderLifecycle, AccountLifecycle, ExposureLimits, LiveValuations, AccountHistory, Counterexamples, TradeGates, PlacementGates, TradeRecords, Exposures, BalanceMutations, AccountSwitches | market-order, pending-order, account-control, account-ledger, atomic-reverse and reconciliation services |
| Idempotency, CommandQueue | idempotency.service.js, account-command-queue.js |
| RiskStream, DrainScheduler | risk-stream.service.js, challenge-risk-engine.js |
| TrailingStop, StopRules, ValuationIndex | trailing-stop and protection planners, protection-trigger.js, valuation-engine.js |
| Timeframes, Candles, CandleSeries, CandleEngine, CandleGaps, CanonicalHistory, CanonicalBars, HistoryCache, TickFilter | modules/market-data |

## What the proofs turned up

- **A negative commission is not recorded.** An opening takes the commission off
  the balance whatever its sign but writes a ledger entry only for a positive
  one; a close gives a negative one to its deal, its position and the equity but
  not to the balance. `RunReconcilesIff` and `RunIsExplainedIff` say that the
  check reports exactly the first and the deals fail to explain exactly the
  second, over every run; `RebatedOpeningIsReported` and
  `RebatedCloseIsUnexplained` are inputs. Margins and references do not depend
  on it (`RunInOrder`, `ClampsAreIdle`).
- **Equity leaves balance plus floating profit** at a rebated close and at a
  close under an incomplete valuation: `RunIdentityIff` is exact,
  `RebatedCloseIsUnexplained` and `UnvaluedCloseBreaksIdentity` are inputs.
- **An unresolved-risk mark is rolled back.** When a completion is out of order
  or its event is missing, the account is marked and saved, and then the error
  aborts the same transaction. `UnresolvedMarkIsRolledBack` proves when the body
  marks and that nothing of it stays, `OutOfOrderIsReached` that two drains get
  there. So no run of the stream ever sets the state an opening is refused for.
- **A snapshot request stores an account without refreshing its conversion
  index**, and after an await, over whatever was stored meanwhile.
  `LoadedIsCompleteIff` gives the exact condition under which the index stays
  complete, `LoadedCanBeIncomplete` an input for which it does not, and
  `OvertakenLoadGoesBack` one whose stored revision goes back.
- **Stop risk leaves out the conversion spread.** Risk is converted as a gain,
  the loss it stands for as a loss, which costs the other side of the quote.
  `StopRiskIsTheLossIff` gives the exact condition for a direct quote,
  `SpreadlessStopRiskIsTheLoss` a sufficient one for every path, and
  `StopRiskCanBeLess` an input.
- **FLOOR and CEIL change sides for a negative step** (`FloorBelowIff`,
  `CeilAboveIff`; `NegativeStepSwapsSides`), and alignment fails for scales more
  than 10000 apart (`AddExact`, `CompareExact`, `AlwaysAlignedIff`;
  `FarApartFails`).
- **The opening leg of a reverse does not ask for a live valuation**, which
  every other opening does (`OpeningNeedsLive`, `ReverseIgnoresLive`;
  `ReverseOpensUnvalued`).
- **Closing without liquidation counts open positions before it restricts the
  account.** What decides is that nothing is open at the restriction
  (`CloseWithoutLiquidationIff`); an order between the two stays open on the
  CLOSED account (`PositionOpenedAfterTheCount`).

## Model

| member | source | states |
|---|---|---|
| Decimal.Pow10Cache.Get | src/shared/decimal/decimal.js:13-21 | the cache answers ten to the power for exactly the exponents 0 to 10000 and only ever grows |
| Decimal.NormalizeParts | src/shared/decimal/decimal.js:36-45 | the trailing-zero loop gives the normal form, which has the same value |
| Decimal.NormalizeKeepsValue | src/shared/decimal/decimal.js:36-45 | normalising never changes the value |
| Decimal.CanonicalUnique | src/shared/decimal/decimal.js:36-45 | a value has one normal form only |
| Decimal.AddExact | src/shared/decimal/decimal.js:97-100 | addition is exact, and answers for exactly the operands whose scales are at most 10000 apart |
| Decimal.SubtractExact | src/shared/decimal/decimal.js:102-105 | subtraction is exact, on the same domain |
| Decimal.MultiplyExact | src/shared/decimal/decimal.js:107-111 | multiplication is exact for all operands |
| Decimal.CompareExact | src/shared/decimal/decimal.js:146-150 | comparison is the order of the rational values, on the same domain as addition |
| DecimalDivision.DivideDomain | src/shared/decimal/decimal.js:113-134 | division answers exactly for scales 0 to 100, nonzero divisors and shifts pow10 can make |
| DecimalDivision.DivideExact | src/shared/decimal/decimal.js:113-144 | in every mode, at every scale and for every sign, the answer is the true quotient rounded in that mode |
| DecimalDivision.RoundAtError | src/shared/decimal/decimal.js:113-144 | the error is below one unit of the last place, at most half a unit for HALF_UP, and on the mode's own side |
| DecimalDivision.RoundRealMeaning | src/shared/decimal/decimal.js:136-144 | what each mode means on the reals; ties of HALF_UP go away from zero |
| DecimalDivision.AlignedMeansMultiple | src/shared/decimal/decimal.js:152-157 | a value is step-aligned exactly when it is a whole multiple of the positive step |
| DecimalDivision.QuantizeExact | src/shared/decimal/decimal.js:159-162 | quantizeToStep gives the rounded quotient times the step |
| DecimalDivision.QuantizeBounds | src/shared/decimal/decimal.js:159-162 | the result is a multiple of the step within one step of the value, on the mode's side for a positive step and on the other for a negative one |
| DecimalDivision.QuantizeBest | src/shared/decimal/decimal.js:159-162 | FLOOR gives the greatest multiple at most the value, CEIL the least at least it |
| DecimalDivision.QuantizeFixesMultiples | src/shared/decimal/decimal.js:159-162 | a multiple of the step is left alone |
| DecimalDivision.FloorBelowIff | src/shared/decimal/decimal.js:159-162 | FLOOR stays at or below the value if and only if the step is positive or the value is already a multiple |
| DecimalDivision.CeilAboveIff | src/shared/decimal/decimal.js:159-162 | CEIL stays at or above the value under exactly the same condition |
| DecimalDivision.NegativeStepSwapsSides | src/shared/decimal/decimal.js:159-162 | an input for both: at a step of -2 FLOOR takes 1 to 2 and CEIL takes it to 0 |
| DecimalDivision.QuantizedIsAligned | src/shared/decimal/decimal.js:152-162 | isStepAligned accepts what quantizeToStep produced, for every positive step of at most 10000 places |
| DecimalDivision.AlwaysAlignedIff | src/shared/decimal/decimal.js:152-162 | it accepts every answer of quantizeToStep if and only if the step has at most 10000 places |
| DecimalText.ParseSpelled | src/shared/decimal/decimal.js:23-67 | every text of the number grammar, with spaces around it and any exponent in range, parses to what it denotes |
| DecimalText.ParsedIsSpelling | src/shared/decimal/decimal.js:23-67 | nothing else parses, and what parses is in normal form |
| DecimalText.InterpretDenotes | src/shared/decimal/decimal.js:47-67 | sign, digits, fraction and exponent together mean the spelled number |
| DecimalText.FormatParseRoundTrip | src/shared/decimal/decimal.js:47-82 | parsing what was printed gives back its normal form |
| DecimalText.SameTextIffEqual | src/shared/decimal/decimal.js:84-86 | two inputs normalise to the same text if and only if they are numerically equal |
| DecimalText.NormalizeDecimalStable | src/shared/decimal/decimal.js:84-86 | normalising is idempotent and loses nothing |
| DecimalText.ApplyExact | src/shared/decimal/decimal.js:84-134 | an operation on two texts answers the normal text of the exact or correctly rounded result |
| DecimalText.FarApartFails | src/shared/decimal/decimal.js:88-105 | an input that is read but cannot be added to 1, compared with it or subtracted from it: 0.1e-10000 |
| Conversion.ConvertReadsOnly | src/modules/trading/valuation-engine.js:343-356 | a conversion reads no quote but the ones conversionSymbols names |
| Conversion.ConvertSign | src/modules/trading/currency-conversion-engine.js:14-58 | a conversion keeps the sign of the amount |
| ProfitAndLoss.ConvertSpread | src/modules/trading/currency-conversion-engine.js:14-58 | with no crossed quote a gain is never paid more than an equal loss costs, over direct, inverse and USD legs |
| ProfitAndLoss.SpreadIsCharged | src/modules/trading/currency-conversion-engine.js:34-47 | and the difference can be strict |
| ProfitAndLoss.ProfitFollowsPrice | src/modules/trading/execution-planner.js:114-167 | a close at a better price than the entry never books a loss, at a worse one never a profit |
| ProfitAndLoss.FullCloseBooksTheValuation | src/modules/trading/valuation-calculator.js:12-47 | closing in full at the valued price books exactly the floating profit shown in the account's currency |
| ProfitAndLoss.DirectSpreadIff | src/modules/trading/currency-conversion-engine.js:14-58 | over a direct quote a gain is worth what an equal loss costs if and only if bid equals ask |
| ProfitAndLoss.SpreadlessIsFair | src/modules/trading/currency-conversion-engine.js:14-58 | with no spread on any quote it can look at a conversion is odd, over direct, inverse and USD legs |
| ProfitAndLoss.InverseSpreadShows | src/modules/trading/currency-conversion-engine.js:14-58 | over an inverse quote a spread worth a unit of the twelfth place or more makes the gain strictly smaller than the loss |
| ProfitAndLoss.StopRiskIsAtMostTheLoss | src/modules/trading/firm-risk-policy.js:121-219 | measured stop risk is at most the loss and cost of a close at the stop |
| ProfitAndLoss.StopRiskIsTheLossIff | src/modules/trading/firm-risk-policy.js:121-219 | with a direct quote or no conversion the two are equal if and only if profit is in the account's currency, the contract size is zero, or bid equals ask |
| ProfitAndLoss.SpreadlessStopRiskIsTheLoss | src/modules/trading/firm-risk-policy.js:121-219 | over every path they are equal when no quote the conversion can look at has a spread |
| Counterexamples.StopRiskCanBeLess | src/modules/trading/firm-risk-policy.js:121-219 | a position whose measured risk is ten and whose close at the stop loses eleven |
| ValuationCalculator.AggregateAccountValuation | src/modules/trading/valuation-calculator.js:49-103 | the five accumulators of the loop amount to the aggregate, skipped positions included |
| ValuationCalculator.AggregateMeaning | src/modules/trading/valuation-calculator.js:49-103 | complete exactly when every position is priced in the account's currency, LIVE exactly when none of their quotes is stale; floating profit is then the sum of the converted profits and equity the balance plus it, with the margin in use, free margin and margin level that follow |
| ValuationCalculator.AggregateReadsOnly | src/modules/trading/valuation-calculator.js:49-109 | an aggregate depends on no quote but its positions' conversion symbols |
| RiskPolicy.MarginUsageBound | src/modules/trading/firm-risk-policy.js:388-504 | acceptance bounds used margin after the trade by the usage limit plus half of 10^-8 of the equity after its cost |
| RiskPolicy.AggregateRiskBound | src/modules/trading/firm-risk-policy.js:230-312 | acceptance bounds the measured risk of all positions and the new one |
| RiskPolicy.CommissionNonNegative | src/modules/trading/trading-costs.js:11-44 | the commission of an instrument without rebates is not negative |
| ExecutionPlanner.OnStepIffMultiple | src/modules/trading/execution-planner.js:267-289 | volumes and prices pass exactly when they are multiples of their step |
| ExecutionPlanner.ReleasedMarginBounds | src/modules/trading/execution-planner.js:114-167 | a close releases between nothing and all of the margin |
| ExecutionPlanner.ReleasedMarginShare | src/modules/trading/execution-planner.js:114-167 | and its share is proportional up to half a unit of the twelfth place |
| ExecutionPlanner.MarginNonNegative | src/modules/trading/execution-planner.js:311-324 | required margin is not negative |
| ExecutionPlanner.AcceptedOpenIsCovered | src/modules/trading/execution-planner.js:26-112 | an accepted opening leaves free margin non-negative and margin usage within its limit, whatever its commission |
| ExecutionPlanner.AcceptedOpenCounts | src/modules/trading/firm-risk-policy.js:344-386 | an accepted opening fits the position limits with itself included, on an active account |
| ExecutionPlanner.AcceptedOpenShape | src/modules/trading/execution-planner.js:26-112 | what an accepted opening plan carries over from the command and the instrument |
| ExecutionPlanner.AcceptedCloseShape | src/modules/trading/execution-planner.js:114-167 | what a close plan takes off the position, in volume and margin, and when it is a full close |
| PendingPlanner.PlacedOrderShape | src/modules/trading/pending-order-planner.js:24-129 | an accepted placement is PENDING, within its count limits, and carries the prices, protection and expiry it was asked with |
| PendingPlanner.PlacedOrderRests | src/modules/trading/pending-order-planner.js:131-194 | at the quote it was placed on an order neither fills nor activates |
| AccountDocuments.AccountDocument.ApplyOpen | src/modules/trading/market-order.service.js:553-562 | the in-place mutation takes the commission off balance and equity, reserves the margin and changes nothing else |
| AccountDocuments.AccountDocument.ApplyClose | src/modules/trading/market-order.service.js:564-616 | the account half of the in-place close is AfterClose, with the ledger entries that chain its balance |
| AccountDocuments.PositionDocument.ApplyClose | src/modules/trading/market-order.service.js:618-628 | the position half of the in-place close is ClosedPosition |
| AccountDocuments.ApplyClose | src/modules/trading/market-order.service.js:564-630 | both halves on two documents, the entries chaining the old balance to the new |
| Reconciliation.CheckAccount | src/modules/operations/reconciliation.service.js:181-227 | the check reports no issue if and only if the records are reconciled, and only a broken chain or a balance mismatch for records in order |
| Reconciliation.CheckLedger | src/modules/operations/reconciliation.service.js:181-208 | the ledger loop reports nothing exactly for an unbroken chain from zero that ends at the balance |
| Reconciliation.CheckReferences | src/modules/operations/reconciliation.service.js:211-227 | the reference loops report nothing exactly when every filled order has a deal and every deal resolves |
| Reconciliation.OpenReconcilesIff | src/modules/trading/market-order.service.js:291-395 | an opening keeps the records reconciled if and only if its commission is not negative |
| Reconciliation.CloseInOrder | src/modules/trading/market-order.service.js:564-630 | a close keeps margins and references in order and lowers the margin in use by exactly what it releases; the account's clamp to zero changes nothing |
| Reconciliation.CloseReconciles | src/modules/trading/market-order.service.js:397-481 | a close keeps the records reconciled whatever it charges |
| Reconciliation.ProvisionedSound | src/modules/trading/account-control.service.js:50-124 | provisioning starts from reconciled records |
| Reconciliation.StepKeeps | src/modules/accounts/account-ledger.service.js:51-132 | every command, in every market, keeps margins and references in order; it keeps the ledger in agreement with the balance unless it records an opening with a negative commission, and then the two disagree for good |
| Reconciliation.RunInOrder | src/modules/operations/reconciliation.service.js:181-227 | over every run the margin in use is the sum of the open positions' margins, positions are valid, every filled order has a deal, every deal resolves, and the ledger starts from zero and adds up |
| Reconciliation.RunReconcilesIff | src/modules/operations/reconciliation.service.js:181-227 | after any run from provisioning the records are in order, and the check reports no issue if and only if no opening of the run was recorded with a negative commission |
| Counterexamples.RebatedOpeningIsReported | src/modules/trading/market-order.service.js:291-395 | an instrument that pays a commission per lot, whose opening commits and whose records the check then reports |
| Reconciliation.RunReconciles | src/modules/operations/reconciliation.service.js:181-227 | what a caller can check beforehand: in markets without per-lot rebates every run stays reconciled |
| MarginRelease.CloseConservesMargin | src/modules/trading/market-order.service.js:618-628 | what a position's margin loses is what the plan releases; the position's clamp to zero changes nothing |
| MarginRelease.ClampsAreIdle | src/modules/trading/market-order.service.js:604-630 | at every committed close of every run, a reverse's included, neither the account's nor the position's clamp changes a value |
| MarginRelease.ReleasedSumsToReserved | src/modules/trading/market-order.service.js:564-630 | over any partial closes ended by a full one the released margins sum to the margin reserved, and the volumes to the volume opened |
| MarginRelease.RunClosesPosition | src/modules/trading/market-order.service.js:397-481 | in every run a position is what the closes committed on it, and nothing else, have made of it |
| MarginRelease.RunReleasesReserved | src/modules/trading/market-order.service.js:564-630 | in every run the margins those closes released are what the position lost, and all that was reserved for it once it is CLOSED; the same for its volume |
| MarginRelease.CloseIdentityIff | src/modules/trading/market-order.service.js:604-616 | a close keeps equity = balance + floating profit if and only if its rebate equals the profit an incomplete valuation leaves in place |
| MarginRelease.StepIdentityIff | src/modules/trading/market-order.service.js:553-630 | every command keeps equity = balance + floating profit, a committed close or reverse if and only if its recorded rebate equals the profit an incomplete valuation left in place |
| MarginRelease.RunIdentityIff | src/modules/trading/market-order.service.js:553-630 | over any run equity is balance plus floating profit at every moment if and only if no committed close or reverse leaves anything in the gap |
| Counterexamples.UnvaluedCloseBreaksIdentity | src/modules/trading/market-order.service.js:604-616 | a profit booked under an incomplete valuation: balance 102, equity 100 |
| MarginRelease.RunIdentity | src/modules/trading/market-order.service.js:553-630 | what a caller can check beforehand: with complete valuations and no rebates at closes equity stays balance plus floating profit over any run |
| DealAccounting.OpenExplained | src/modules/trading/market-order.service.js:291-395 | an opening moves balance, revision and the new position by exactly what its deal records |
| DealAccounting.CloseExplainedIff | src/modules/trading/market-order.service.js:397-481 | a close keeps the balance explained by the deals if and only if its commission is not negative; up to the rebate it always does |
| DealAccounting.RunIsAccounted | src/modules/trading/market-order.service.js:553-646 | over any run the balance is the mutations plus profit less commission of all deals, less the rebates of closes; each position has realised, paid and closed what its deals say, and the revision counts them |
| DealAccounting.RunIsExplainedIff | src/modules/trading/market-order.service.js:553-646 | from provisioning on the deals explain the balance without exception if and only if no close of the run was recorded with a negative commission |
| DealAccounting.RunIsExplained | src/modules/trading/market-order.service.js:553-646 | what a caller can check beforehand: with no rebate at any close of the run they do |
| Counterexamples.RebatedCloseIsUnexplained | src/modules/trading/market-order.service.js:397-481 | a rebated close that commits, reconciles, and leaves the balance unexplained and equity above balance plus floating profit |
| AccountHistory.EveryAccount | src/modules/operations/reconciliation.service.js:181-227 | from provisioning on every run keeps the lifecycle, the orders and the accounting, and is both reconciled and explained if and only if no deal has a negative commission |
| OrderLifecycle.StepKeepsOrders | src/modules/trading/pending-order.service.js:239-429 | every command keeps the order invariants and every final order |
| OrderLifecycle.RunKeepsOrders | src/modules/trading/pending-order.service.js:239-429 | only STOP_LIMIT is ever TRIGGERED; FILLED has exactly one position and one opening deal, anything else none; no limit fills worse than its limit |
| OrderLifecycle.FinalForever | src/modules/trading/pending-order.service.js:239-429 | a pending order never leaves a final status, nor changes in it |
| AccountLifecycle.RunKeepsLifecycle | src/modules/trading/account-control.service.js:132-393 | trading is enabled exactly when ACTIVE; lifecycle events chain to the current status; BREACHED and DISABLED only become CLOSED, which is absorbing |
| AccountLifecycle.RestrictedOnlyCloses | src/modules/trading/account-control.service.js:341-393 | once an account is restricted no command opens a position on it |
| AccountLifecycle.RestrictedRunOnlyCloses | src/modules/trading/account-control.service.js:341-393 | over a whole run positions are only closed and the account stays restricted |
| AccountLifecycle.CloseLeavesNothingOpen | src/modules/trading/account-control.service.js:283-339 | if each position listed open after the restriction gets a liquidating close that commits, the account becomes CLOSED with no open position, whatever ran in between |
| AccountLifecycle.RestrictedStaysQuiet | src/modules/trading/account-control.service.js:341-410 | after a restriction that cancels pending orders no order is ever active again |
| AccountLifecycle.CloseWithoutLiquidationIff | src/modules/trading/account-control.service.js:283-339 | whatever else than a close runs between the restriction and the end, an account closed without liquidation has nothing open if and only if nothing was open when it was restricted |
| AccountLifecycle.NothingOpenStays | src/modules/trading/account-control.service.js:283-339 | with closes in between, nothing open at the restriction is enough |
| Counterexamples.PositionOpenedAfterTheCount | src/modules/trading/account-control.service.js:290-310 | the count is taken before the restriction: an order between the two leaves a CLOSED account with an open position |
| AccountLifecycle.LiquidationCloses | src/modules/trading/account-control.service.js:428-478 | a liquidating close that commits has closed its position in full |
| ExposureLimits.LoadExposure | src/modules/trading/market-order.service.js:726-800 | the accumulator loop computes the exposure, unmeasured positions included, and its counts are recounts |
| ExposureLimits.ExposureIsCount | src/modules/trading/market-order.service.js:726-800 | the counts it gives the policy are the open positions, in total, on the symbol, and without a stop |
| ExposureLimits.OpeningIsCovered | src/modules/trading/firm-risk-policy.js:388-504 | after a committed opening, market, pending or reverse, free margin is non-negative and margin usage within its limit |
| ExposureLimits.EveryOpeningIsCovered | src/modules/trading/firm-risk-policy.js:388-504 | and so at every step of every run that adds a position |
| LiveValuations.OpeningNeedsLive | src/modules/trading/valuation-engine.js:160-190 | whatever adds a position or a pending order, a reverse apart, was planned on a live and complete valuation |
| LiveValuations.ReverseIgnoresLive | src/modules/trading/atomic-reverse.service.js:38-66 | a reverse does the same under a valuation that is not live |
| Counterexamples.ReverseOpensUnvalued | src/modules/trading/atomic-reverse.service.js:38-66 | a reverse that opens its second leg under a valuation neither live nor complete, where the market order is refused |
| ExposureLimits.RunWithinLimits | src/modules/trading/firm-risk-policy.js:344-386 | over any run under a fixed policy open positions never exceed their limits |
| Idempotency.IdempotencyService.Reserve | src/modules/trading/idempotency.service.js:40-114 | reserve on its own: what it stores and answers for a new, reused, expired, failed, running or finished key |
| Idempotency.IdempotencyService.Complete | src/modules/trading/idempotency.service.js:116-134 | completes a record in progress and no other |
| Idempotency.IdempotencyService.Fail | src/modules/trading/idempotency.service.js:136-157 | fails a record in progress and no other; retryable as the caller says, or else exactly for a finite server-error status |
| Idempotency.StepsAreReserve | src/modules/trading/idempotency.service.js:40-114 | the interleaved steps of an executor, when nobody comes between, are reserve |
| Idempotency.RunIsExactlyOnce | src/modules/trading/idempotency.service.js:40-157 | under any interleaving, crash, lease expiry, recovery, retry and abort the effect commits once when COMPLETED and never otherwise, and every result answered is the committed one |
| Idempotency.CompletedForever | src/modules/trading/idempotency.service.js:116-134 | COMPLETED is never left and its record never changes |
| Idempotency.LateRequestReplays | src/modules/trading/market-order.service.js:487-521 | a request after the commit is answered with the committed response if identical and KEY_REUSED if not |
| Idempotency.LateRequestIsAnswered | src/modules/trading/market-order.service.js:487-504 | three of its own steps give it that answer, and commit nothing |
| Idempotency.AbandonedIsRecovered | src/modules/trading/idempotency.service.js:71-105 | a reservation whose lease has ended by the clock, or a retryable failure, is taken over and committed by three steps of its own |
| CommandQueue.AccountCommandQueue.Submit | src/modules/trading/account-command-queue.js:8-21 | a task is queued behind the tail its account had, becomes the new tail, and an empty id is refused before that |
| CommandQueue.AccountCommandQueue.Clean | src/modules/trading/account-command-queue.js:18-20 | only the task that is still the tail deletes the key |
| CommandQueue.RunIsSerialised | src/modules/trading/account-command-queue.js:8-21 | in every order of callbacks, tasks of an account start in submission order and only after the earlier ones ended |
| CommandQueue.AtMostOneRuns | src/modules/trading/account-command-queue.js:8-21 | two tasks of one account never run together |
| CommandQueue.AbsentMeansIdle | src/modules/trading/account-command-queue.js:18-20 | a key is absent only when nothing of it is queued or running, and absent once all of it is cleaned up |
| CommandQueue.DrainedMeansOver | src/modules/trading/account-command-queue.js:23-27 | drain returns after everything submitted before it |
| CommandQueue.HeadRuns | src/modules/trading/account-command-queue.js:13-16 | the oldest unfinished task runs, or will after one callback, however its predecessor ended |
| RiskStream.EvidenceIsExact | src/modules/trading/challenge-risk-engine.js:123-198 | the evidence of a breach is exact, its clamps change nothing, and its rules are the broken ones |
| RiskStream.RiskStreamService.AppendEvent | src/modules/trading/risk-stream.service.js:206-228 | appends under the next number unless the key is there |
| RiskStream.RiskStreamService.IngestValuation | src/modules/trading/risk-stream.service.js:25-105 | stale or incomplete valuations add nothing; a new day rolls over before the valuation is recorded |
| RiskStream.RiskStreamService.CompleteBodyInPlace | src/modules/trading/risk-stream.service.js:149-185 | the body of complete: what it has written when it returns or throws, the unresolved mark of both throwing branches included |
| RiskStream.RiskStreamService.CompleteEvent | src/modules/trading/risk-stream.service.js:148-187 | the transaction around it keeps what the body wrote if it returned, and puts account and events back if it threw |
| RiskStream.RunKeepsStream | src/modules/trading/risk-stream.service.js:132-229 | with any number of crashing and replaying drains: events are 1..riskSequence under distinct keys, evaluated exactly up to lastEvaluated with the verdict on their stored context, and no gap is ever found |
| RiskStream.UnresolvedMarkIsRolledBack | src/modules/trading/risk-stream.service.js:148-170 | at every reachable state the body marks the account if and only if the event is not the next one, the transaction then leaves no mark, and the verdict it reported was stored before |
| RiskStream.OutOfOrderIsReached | src/modules/trading/risk-stream.service.js:148-170 | a run of two drains that reaches such a completion from an account without events |
| RiskStream.DrainMakesProgress | src/modules/trading/challenge-risk-engine.js:75-120 | a drain left alone evaluates the next event, whatever crashed before |
| DrainScheduler.ChallengeRiskEngine.Schedule | src/modules/trading/challenge-risk-engine.js:59-73 | starts a drain if none is in flight, and otherwise remembers to rerun it |
| DrainScheduler.ChallengeRiskEngine.Finish | src/modules/trading/challenge-risk-engine.js:65-73 | ends a drain and starts the rerun that was asked for |
| DrainScheduler.WakeUpIsKept | src/modules/trading/challenge-risk-engine.js:59-73 | a wake-up is never lost: a drain begins after it or will when the running one ends |
| DrainScheduler.OneDrainAtATime | src/modules/trading/challenge-risk-engine.js:59-73 | at most one drain per account is running |
| TrailingStop.AcceptedDoesNotTrigger | src/modules/trading/position-protection-planner.js:11-76 | an accepted protection never triggers on the quote it was accepted on |
| TrailingStop.BreakEvenIsEarned | src/modules/trading/position-protection-planner.js:168-179 | a break-even stop is the entry price and needs a better price than that |
| TrailingStop.ConfigureTrails | src/modules/trading/trailing-stop-planner.js:16-55 | configuring starts a sound trail, or refuses, and never loosens the stop |
| TrailingStop.AdvanceTrails | src/modules/trading/trailing-stop-planner.js:57-91 | an advance keeps the trail, never loosens, and moves the stop only on a tick that sets a new best price and triggers nothing on the new stop |
| TrailingStop.CandidateMonotone | src/modules/trading/trailing-stop-planner.js:93-100 | a better best price never gives a looser candidate stop |
| TrailingStop.RunTrails | src/modules/trading/trailing-stop-planner.js:16-112 | over any run the best price is the best applied one since the last configuration and the stop is at least as tight as the grid-rounded best less the distance |
| TrailingStop.StopNeverLoosens | src/modules/trading/trailing-stop-planner.js:102-112 | over any run the stop never loosens |
| TrailingStop.StopFollows | src/modules/trading/trailing-stop-planner.js:93-100 | the stop is within one tick of the distance behind the best price |
| Timeframes.BucketHolds | src/modules/market-data/market.constants.js:23-31 | a bucket is on its grid and holds exactly the times of one step |
| Timeframes.FourHoursNest | src/modules/market-data/market.constants.js:23-31 | four-hour buckets nest in day buckets and Monday-anchored weeks |
| Candles.DirectIsSummary | src/modules/market-data/candle-engine.js:90-150 | the fold of a tick history has one candle per bucket with a tick, each the first, greatest, least, last and count of its prices |
| CandleEngine.CandleEngine.ProcessTick | src/modules/market-data/candle-engine.js:90-152 | every configured series of the symbol, new ones included, takes the tick; every other series is as before |
| CandleEngine.CandleEngine.FlushExpired | src/modules/market-data/candle-engine.js:154-172 | every series is flushed once, whatever the order of the map |
| CandleEngine.CandleEngine.SetSymbolLive | src/modules/market-data/candle-engine.js:83-88 | a feed that goes down breaks continuity |
| CandleEngine.TickSeries | src/modules/market-data/candle-engine.js:103-149 | updating in place, replacing a synthetic candle or closing and opening: the branches compute the function whose runs keep the candle invariant |
| CandleEngine.FillGap | src/modules/market-data/candle-engine.js:288-305 | the index loop fills exactly the open-session buckets of a short gap, each at the last close |
| CandleEngine.FlushSeries | src/modules/market-data/candle-engine.js:159-170 | the while loop closes and carries forward as the function whose runs keep the candle invariant |
| CandleSeries.TickKeeps | src/modules/market-data/candle-engine.js:103-149 | a tick keeps the series invariant, with the tick added to the history |
| CandleSeries.FlushKeeps | src/modules/market-data/candle-engine.js:154-172 | so does a flush, with nothing added |
| CandleSeries.FlushLeavesNoneExpired | src/modules/market-data/candle-engine.js:158-170 | the safety counter never ends the flush loop early |
| CandleEngine.RunKeepsCandles | src/modules/market-data/candle-engine.js:90-172 | in every run in non-decreasing time: closed candles increase on the grid, real ones are the fold of their bucket's ticks, synthetic ones hold no tick and are not persisted, at most twice the gap limit in a row |
| CanonicalHistory.AggregateCanonicalUtcBars | src/modules/market-data/canonical-history.js:17-86 | the maps and sorts make the fold of the deduplicated bars in time order |
| CanonicalHistory.AggregationNests | src/modules/market-data/canonical-history.js:17-86 | for every time-ordered tick history, aggregated four-hour candles have the open, high, low and close of the day or week candles built directly |
| CanonicalHistory.HistoryMatchesTicks | src/modules/market-data/canonical-history.js:17-86 | the same for the published bars, whatever the volumes |
| CanonicalHistory.ReadsAsBars | src/modules/market-data/canonical-history.js:22-38 | whatever the order, repetition and unusable rows, the answer is read as the bars it is about |
| CanonicalHistory.GroupsCountBars | src/modules/market-data/canonical-history.js:40-71 | every bar and every valid volume is counted in one group |
| HistoryCache.ProviderHistoryCache.Lookup | src/modules/market-data/history-cache.js:107-124 | a lookup drops an expired entry, misses a short one, and moves a hit to the recent end |
| HistoryCache.ProviderHistoryCache.Store | src/modules/market-data/history-cache.js:126-141 | a store replaces the entry and evicts |
| HistoryCache.ProviderHistoryCache.EvictOldest | src/modules/market-data/history-cache.js:150-157 | the loop evicts the oldest entries until both bounds hold |
| HistoryCache.ProviderHistoryCache.Clear | src/modules/market-data/history-cache.js:100-105 | a clear empties everything and moves the generation on |
| HistoryCache.EvictIsLongest | src/modules/market-data/history-cache.js:150-157 | eviction keeps exactly the longest recent part within both bounds; nothing is left when the newest entry alone is too large |
| HistoryCache.GetKeeps | src/modules/market-data/history-cache.js:107-124 | a hit is the last limit bars of the provider's series |
| HistoryCache.RunKeepsCache | src/modules/market-data/history-cache.js:40-157 | in every interleaving every answer is the last limit bars, totalBars is the sum, both bounds hold, and one load per key runs per generation |
| HistoryCache.ClearedLoadsNeverStore | src/modules/market-data/history-cache.js:63-74 | a load begun before a clear never stores afterwards |
| TickFilter.TickSanityFilter.AcceptTick | src/modules/market-data/tick-sanity-filter.js:229-243 | accepting moves the last price, the newest moves and the latest timestamp of one symbol |
| TickFilter.TickSanityFilter.InspectTick | src/modules/market-data/tick-sanity-filter.js:63-168 | inspection updates its own symbol as specified and no other |
| TickFilter.RunIsSound | src/modules/market-data/tick-sanity-filter.js:63-168 | accepted ticks are a duplicate-free part of the valid input in order; valid = accepted + rejected + pending; a pending tick's anchor is the last accepted price; beyond the threshold only recovery or a confirmed pair passes |
| TickFilter.MedianSplits | src/modules/market-data/tick-sanity-filter.js:25-32 | half of the recent moves are on either side of the median, which is zero without moves |
| ValuationIndex.ValuationEngine.Refresh | src/modules/trading/valuation-engine.js:276-294 | its three loops take the account out of its old symbols, collect the new ones and put it under them, touching no other account |
| ValuationIndex.ValuationEngine.Store | src/modules/trading/valuation-engine.js:258-270 | storing a position reindexes it and refreshes its account, and the account it left |
| ValuationIndex.ValuationEngine.Remove | src/modules/trading/valuation-engine.js:232-244 | removing a position unindexes it and refreshes its account |
| ValuationIndex.RefreshCompletes | src/modules/trading/valuation-engine.js:276-294 | a refreshed account is indexed under exactly the symbols its conversions can read |
| ValuationIndex.RefreshStaysInverse | src/modules/trading/valuation-engine.js:276-294 | a refresh keeps the two conversion indexes inverse to each other |
| ValuationIndex.StartIsIndexed | src/modules/trading/valuation-engine.js:53-71 | what start stores is indexed, completely for every account |
| ValuationIndex.RunIsIndexed | src/modules/trading/valuation-engine.js:122-294 | after any events, snapshot requests overtaken by others included, the symbol and account indexes are the inverses of the position map, the conversion indexes of each other, and complete but for accounts whose currency a snapshot request changed |
| ValuationIndex.UpdatedStaysComplete | src/modules/trading/valuation-engine.js:245-251 | an account stored by an account update stays completely indexed as long as no snapshot request, begun before or after, stores it in another currency |
| ValuationIndex.UntouchedIsUnchanged | src/modules/trading/valuation-engine.js:208-224 | an account the indexes leave out of a quote aggregates to the same as before it |
| ValuationIndex.LoadedIsCompleteIff | src/modules/trading/valuation-engine.js:122-131 | an account whose document a snapshot request stores stays completely indexed if and only if its positions need the same symbols in the new currency as in the one stored |
| ValuationIndex.FirstLoadIsCompleteIff | src/modules/trading/valuation-engine.js:122-131 | one that was not stored, if and only if none of its positions needs converting |
| ValuationIndex.LoadedCanBeIncomplete | src/modules/trading/valuation-engine.js:122-131 | an input for which it is not |
| ValuationIndex.OvertakenLoadGoesBack | src/modules/trading/valuation-engine.js:122-131 | a snapshot request overtaken by an account update writes the older document over the newer one |
| Idempotency.ReserveMeaning | src/modules/trading/idempotency.service.js:40-114 | on the stored record: a new key is taken; an identical request takes over a failure that can be retried and a lease that has run out, replays a completion, and otherwise is told it is in progress; another payload conflicts |
| Idempotency.AttemptTakesIff | src/modules/trading/idempotency.service.js:40-114 | an attempt takes the key exactly when there is no record, or the same payload left a failure to retry or a lease that ended by this moment; otherwise it is told which of key reuse, in progress, completion and failure it met, and no record changes |
| Idempotency.LeaseLasts | src/modules/trading/idempotency.service.js:52-81 | with a reservation held since one moment, the same payload is told COMMAND_IN_PROGRESS and changes no record before that moment plus the lease, and holds the key from then on |
| Idempotency.ReservationLasts | src/modules/trading/idempotency.service.js:40-157 | the same after any run in which the record still stands |
| Idempotency.FailureIsRetriedIff | src/modules/trading/idempotency.service.js:136-157 | after a recorded failure the same payload takes the key exactly when the caller said retryable or, where it said nothing, the failure was a server error |
| Idempotency.UnrecordedFailureKeepsLease | src/modules/trading/idempotency.service.js:136-157 | a crash, or a failure that could not be recorded, leaves the lease as it was |
| Idempotency.CommitsIffInProgress | src/modules/trading/idempotency.service.js:116-134 | an executor commits exactly when its record is still in progress, and completes it; otherwise it fails with a conflict and commits nothing |
| RiskStream.VerdictIff | src/modules/trading/challenge-risk-engine.js:123-198 | breached exactly when the equity is at or below the initial balance less a positive maximum loss, or the day's start less a positive daily loss; the evidence says which, and safe carries equity, day and policy version |
| RiskStream.EvaluatedAsFiguresSay | src/modules/trading/challenge-risk-engine.js:75-198 | every evaluated event of every run of crashing drains has the verdict its stored figures give |
| RiskStream.IngestRecords | src/modules/trading/risk-stream.service.js:25-105 | which events a valuation adds, with every figure in their context, and what it leaves on the account |
| RiskStream.DrainEnforces | src/modules/trading/challenge-risk-engine.js:75-120 | a drain breaches the account exactly when the figures do and it is active and trading, and completes the event with that verdict |
| RiskStream.MissingEventIsGap | src/modules/trading/risk-stream.service.js:132-146 | a missing next event is a gap, and marks the account unresolved, exactly when a later one has been numbered |
| ValuationCalculator.ProfitAtQuote | src/modules/trading/valuation-calculator.js:12-47 | profit is the way from the entry to the price the position closes at, on its contract size and volume; there is none without a positive price |
| ValuationCalculator.SumMeaning | src/modules/trading/valuation-calculator.js:49-103 | the accumulators are sums over the positions: floating profit of the converted profits, used margin of the margins |
| ValuationCalculator.StaleSymbolsAre | src/modules/trading/valuation-calculator.js:49-103 | the stale symbols are exactly those of the positions that are not priced live |
| BalanceMutations.MutationCommitsIff | src/modules/accounts/account-ledger.service.js:51-132 | under a new key a mutation commits exactly for a positive amount, an account that is not closed, a balance and (for a withdrawal) free margin that stay non-negative; a deposit or adjustment raises balance and equity by the amount, a withdrawal lowers them, and one entry of that sign is appended |
| BalanceMutations.MutationRefusals | src/modules/accounts/account-ledger.service.js:51-132 | every refusal, with its code, in the order the reasons apply |
| BalanceMutations.MutationReplaysIff | src/modules/accounts/account-ledger.service.js:55-64 | under a known key nothing changes: a replay for the same kind, amount and reference, else a conflict |
| BalanceMutations.MutatedTwiceIsOnce | src/modules/accounts/account-ledger.service.js:51-188 | a mutation sent twice moves the money once |
| CandleGaps.TickFillsGapIff | src/modules/market-data/candle-engine.js:111-149 | with n buckets missing before a tick, each in-session one is closed as one flat candle at the last close exactly when the feed did not break, the timeframe is synthetic and n is within the limit; otherwise none is |
| CandleGaps.TickWithinBucket | src/modules/market-data/candle-engine.js:103-149 | a tick of the open bucket updates its candle or replaces a synthetic one, and an earlier one is ignored |
| CandleGaps.FlushCarriesIff | src/modules/market-data/candle-engine.js:154-172 | a flush closes what is over and carries the close forward exactly while the feed is up and unbroken, the timeframe is synthetic, the bucket has begun and is in session, and fewer than the limit are in a row |
| CandleGaps.FlushLeavesRunning | src/modules/market-data/candle-engine.js:154-160 | a candle that is still running is left alone |
| CandleGaps.ChartPriceIsFirst | src/modules/market-data/candle-engine.js:96-100 | the price is the provider's, else the reference, the mid or the bid, whichever first is positive |
| CandleGaps.FeedIs | src/modules/market-data/candle-engine.js:83-152 | over every run, the feed is up after a tick until it goes down, and continuity is broken exactly when it went down since the last tick |
| CandleGaps.RunFillsGapIff | src/modules/market-data/candle-engine.js:83-149 | the gap law over every run: filled exactly when the feed has not gone down since the last tick |
| CandleGaps.RunCarriesIff | src/modules/market-data/candle-engine.js:83-172 | the flush law over every run, in the same terms |
| CanonicalBars.BarsAre | src/modules/market-data/canonical-history.js:17-85 | only days and weeks are aggregated, and each bar has the first open, last close, extremes and count of exactly the bars in its bucket, with a volume exactly when all of them have one |
| CanonicalBars.EveryBarIsIn | src/modules/market-data/canonical-history.js:40-75 | every source bar is in one of them |
| CanonicalBars.LastRowCounts | src/modules/market-data/canonical-history.js:22-38 | the last readable row of an open time is the bar that is used, field by field |
| CanonicalBars.RowsOnly | src/modules/market-data/canonical-history.js:22-38 | there is no bar at a time without a readable row |
| DrainScheduler.NoDrainUnwoken | src/modules/trading/challenge-risk-engine.js:59-73 | in every run no more drains of an account begin than there were wake-ups for it |
| DrainScheduler.EndBeginsIff | src/modules/trading/challenge-risk-engine.js:59-73 | a drain that ends begins another exactly when one is remembered and the engine still runs |
| Conversion.SymbolsAre | src/modules/trading/valuation-engine.js:343-356 | the symbols of a conversion: the pair both ways and, unless one is the dollar, each with the dollar both ways |
| Timeframes.StepsAre | src/modules/market-data/market.constants.js:3-21 | the length of every timeframe, and Monday as the start of the week |
| PendingPlanner.DetectsIff | src/modules/trading/pending-order-planner.js:131-194 | an order expires, fills or activates exactly when its time has come or the price on its side has reached its level, for every kind and both sides |
| PendingPlanner.NoPriceNoFill | src/modules/trading/pending-order-planner.js:131-194 | without a live quote on its symbol with a price it only can expire |
| PendingPlanner.PlacedAwayFromMarket | src/modules/trading/pending-order-planner.js:80-129 | where each kind of accepted order lies from the market on either side |
| ExecutionPlanner.MarginIsLeveraged | src/modules/trading/execution-planner.js:311-324 | the margin of a notional: its rate, or divided by the lower of account and instrument leverage |
| TradeGates.ConvertsAs | src/modules/trading/currency-conversion-engine.js:14-58 | what an amount converts to: itself, over the direct quote, the inverse one, or the dollar in two such steps; gains and losses at their own side |
| TradeGates.CommissionIs | src/modules/trading/trading-costs.js:11-44 | so much a lot, per-side terms first, and the rate on the notional in the account's currency |
| TradeGates.RequiredMarginIs | src/modules/trading/execution-planner.js:311-324 | the leveraged notional in the account's currency |
| TradeGates.StopRiskIs | src/modules/trading/firm-risk-policy.js:121-174 | nothing for a stop in profit, else the way to it on the volume in the account's currency |
| TradeGates.PolicyAcceptsIff | src/modules/trading/firm-risk-policy.js:230-504 | a trade passes exactly when its volumes, counts, measured risk and margins each fit their limit or default |
| TradeGates.OpensIff | src/modules/trading/execution-planner.js:26-112 | an opening is planned exactly when account, instrument, quote, volume, protection, policy and free margin all allow it, and the plan is of those figures |
| TradeGates.OpensWithFigures | src/modules/trading/execution-planner.js:26-112 | without such figures there is no plan |
| TradeGates.ClosesIff | src/modules/trading/execution-planner.js:114-167 | a close is planned exactly when the position is open, the volume fits it and the quote can be used, and the plan is of those figures |
| TradeGates.ClosesWithFigures | src/modules/trading/execution-planner.js:114-167 | every planned close has such figures |
| PlacementGates.PlacesIff | src/modules/trading/pending-order-planner.js:24-129 | an order is accepted exactly when account, instrument, quote, volume, prices, the side of the market it waits on, protection, policy and expiry all allow it at its reference price |
| PlacementGates.PlacesWithFigures | src/modules/trading/pending-order-planner.js:24-129 | and every accepted order has such figures |
| Exposures.ExposureSums | src/modules/trading/market-order.service.js:726-803 | the exposure is given exactly when no open position's risk is inconvertible, and its volumes, margin and risk are sums over the open positions |
| Exposures.OneMorePosition | src/modules/trading/market-order.service.js:726-803 | the counts of the exposure, and the margin in use, grow by each position as it is open, on the symbol and without a stop |
| Exposures.OneMoreOrder | src/modules/trading/pending-order.service.js:494-515 | the counts of waiting orders grow by each order as it waits, and waits on the symbol |
| Exposures.PositionRiskIs | src/modules/trading/firm-risk-policy.js:176-219 | the risk of a stop is the loss on the way to it plus the closing commission where that is a cost, in the position's own profit currency first |
| Exposures.PositionRiskNeeds | src/modules/trading/firm-risk-policy.js:176-219 | and it is refused only where one of the two cannot be had |
| TradeRecords.RecordsOpening | src/modules/trading/market-order.service.js:291-395 | the order, position, deal, ledger entry and account of an opening, field by field, under a new order or one being filled |
| TradeRecords.OpeningRecordedIff | src/modules/trading/market-order.service.js:291-395 | it is refused exactly for an invalid position, a used order id or a used ledger key |
| TradeRecords.OpenMarketIff | src/modules/trading/market-order.service.js:71-168 | on the figures of an account valued live a market order commits exactly when it may open, can be stored and comes under a new id and key; its order, position, deal, entry and account are stated field by field |
| TradeRecords.OpenMarketNeeds | src/modules/trading/market-order.service.js:111-130 | none commits without a live and complete valuation or without a known exposure |
| TradeRecords.ClosingRecordedIff | src/modules/trading/market-order.service.js:397-481 | a close of a stored position is refused exactly for its price, a used order id or a used ledger key |
| TradeRecords.CloseMarketIff | src/modules/trading/market-order.service.js:170-280 | on the figures of the account as it is valued, live or not, a close commits exactly when it may close and comes under new ids |
| TradeRecords.RecordsClosing | src/modules/trading/market-order.service.js:397-485 | the order, deal, entries, position and account of a close, field by field |
| TradeRecords.ReverseIff | src/modules/trading/atomic-reverse.service.js:38-110 | a reverse whose close commits on its own commits exactly when the opposite opening may follow on the records that close leaves, and pays for it there |
| TradeRecords.ReverseNeedsClose | src/modules/trading/atomic-reverse.service.js:38-110 | a reverse whose close would not commit does not either |
| TradeRecords.ReverseTurnsPosition | src/modules/trading/atomic-reverse.service.js:38-110 | a reverse that commits has closed its position in full and opened the same volume on the other side, with the protection it was given |
| TradeRecords.PlacementAddsOrder | src/modules/trading/pending-order.service.js:104-187 | a placement adds its order and changes nothing else |
| TradeRecords.ActivatesIff | src/modules/trading/pending-order.service.js:239-260 | a stop-limit order is triggered or expires as detection says |
| TradeRecords.FillIs | src/modules/trading/pending-order.service.js:262-408 | a fill is planned at the tick's quote; a refusal of the moment aborts, any other rejects the order, a price worse than the limit leaves it waiting, and the rest is recorded |
| AccountSwitches.RestrictSwitches | src/modules/trading/account-control.service.js:341-411 | a restriction stops trading under its own status unless another restriction came first, and records an event exactly when a switch changed |
| AccountSwitches.ActivatesAccountIff | src/modules/trading/account-control.service.js:153-191 | activating turns everything on, and is refused exactly for a restricted account |
| AccountSwitches.ResumesIff | src/modules/trading/account-control.service.js:193-239 | resuming needs the federation as well |
| AccountSwitches.PauseIsUndone | src/modules/trading/account-control.service.js:133-239 | a pause followed by a resume gives the account back, a stage only by activating |
| AccountSwitches.RestrictionIsFinal | src/modules/trading/account-control.service.js:153-239 | a disabled, breached or closed account is never switched on again |
| AccountSwitches.ProvisionedHolds | src/modules/trading/account-control.service.js:52-131 | a new account holds the amount it was given, in one deposit, and nothing else |
| StopRules.TriggersIff | src/modules/trading/protection-trigger.js:6-53 | an open position is closed on a live quote of its symbol exactly when the price it would close at has come to its stop or its target, the stop first |
| StopRules.ProtectsIff | src/modules/trading/position-protection-planner.js:11-179 | which protections are accepted, and the levels they are accepted with |
| StopRules.CandidateIs | src/modules/trading/trailing-stop-planner.js:93-100 | the candidate is the tightest level on the grid that keeps the distance from the best price |
| StopRules.AdvanceIs | src/modules/trading/trailing-stop-planner.js:57-91 | the stop moves to the candidate of the better best price exactly when that is tighter, and the tick is refused if it cannot be set |
| StopRules.AdvanceNeeds | src/modules/trading/trailing-stop-planner.js:57-91 | nothing is done without a trail or a live quote |
| StopRules.ConfigureIs | src/modules/trading/trailing-stop-planner.js:16-55 | a trail starts at the price the position closes at, with the tighter of its stop and the candidate, if that can be set |
| StopRules.ConfigureNeeds | src/modules/trading/trailing-stop-planner.js:16-55 | nothing is configured on a closed position; switching a trail off keeps the stop |
| HistoryCache.HitsIff | src/modules/market-data/history-cache.js:107-124 | a stored series answers exactly until it expires, for any limit it was asked for or, when it is the whole series, for any; the state after each outcome |
| HistoryCache.StoredLives | src/modules/market-data/history-cache.js:126-141 | what was stored answers for its timeframe's lifetime from the moment it was stored, and not after |
| HistoryCache.EvictionsAreCounted | src/modules/market-data/history-cache.js:150-157 | every evicted entry is counted once, and nothing else is |
| HistoryCache.LoadsAreCounted | src/modules/market-data/history-cache.js:40-98 | in every run the loads counter is the number of loads |
| TickFilter.ThresholdIsGreatest | src/modules/market-data/tick-sanity-filter.js:170-228 | the threshold is the greatest of its parts, each stated on the configuration, the instrument and the recent moves |
| TickFilter.AgreesIff | src/modules/market-data/tick-sanity-filter.js:120-168 | when a tick confirms the pending one |
| TickFilter.InspectsAs | src/modules/market-data/tick-sanity-filter.js:63-168 | which ticks are accepted, rejected, held back, confirmed or recovered, on price, time, threshold and the pending tick |
| TickFilter.CountersAdd | src/modules/market-data/tick-sanity-filter.js:63-168 | over every run confirmed ticks pass in pairs, and every quarantined tick is pending, confirmed or rejected |
| TickFilter.AcceptRemembers | src/modules/market-data/tick-sanity-filter.js:229-243 | what an accepted tick leaves: price, the newest moves and the latest timestamp |

## Left out

- Reconciliation.RunReconciles: in markets without per-lot rebates; `RunReconcilesIff` states the exact condition.
- DealAccounting.RunIsExplained: for closes without a rebate; `RunIsExplainedIff` states the exact condition.
- MarginRelease.RunIdentity: for closes with a complete valuation and no rebate; `RunIdentityIff` states the exact condition for every run.
- ProfitAndLoss.StopRiskIsAtMostTheLoss: one direction; `StopRiskIsTheLossIff` is exact for a direct quote. Over inverse and USD legs rounding to twelve places can hide a spread, so no spread is only sufficient there (`InverseSpreadShows` bounds what can hide).
- ExposureLimits.RunWithinLimits: under a fixed policy; a policy change can lower a limit below what is open.
- AccountLifecycle.CloseLeavesNothingOpen: for closing with liquidation; for closing without see `CloseWithoutLiquidationIff`.
- CandleEngine.CandleEngine.ProcessTick: provider volumes and the update events of a tick are not kept.
- CandleEngine.TickSeries: provider volumes are not kept.
- CandleEngine.RunKeepsCandles: for ticks and flushes in non-decreasing time, since a late tick after a flush can reopen a closed bucket; timeframes are distinct and known.
- CanonicalHistory.AggregationNests: about open, high, low and close; volumes are the subject of `BarsAre`.
- HistoryCache.RunKeepsCache: against a provider whose series does not change; a changed series is only seen when an entry expires.
- TickFilter.RunIsSound: for runs without resetPending, which forgets a pending tick without counting it.
- ValuationIndex.RunIsIndexed: a scheduled revaluation is one event; emitted events, sequence numbers and market-priority retention are not kept.
- ValuationIndex.UpdatedStaysComplete: a snapshot request that stores another currency ends it; `LoadedIsCompleteIff` states when the index survives that.
- TrailingStop.RunTrails: for configurations and ticks only; a stop set by hand between them may be looser.
- Idempotency.RunIsExactlyOnce: while the record is retained; expiry of the retention period removes it.
- RiskStream.RunKeepsStream: from an account without events; the reason, time and metadata of an unresolved mark are not kept.
- Candle volumes and volume modes, candle update events, and the write queue behind persistence.
- Pending-order amendment, whose outcome depends on how Mongoose treats immutable fields.
- The open-position count of closing without liquidation, as a step of its own; bulk control commands that only combine the modelled ones.
- Session calendars, time zones, day keys and next local midnights: parameters.
- Floating-point price synthesis in execution pricing: bid, ask and the adjusted price are exact inputs.
- The 34-digit range of Decimal128: stored amounts are exact.
- The digest in shortened child command ids, canonicalisation of payloads, and hashing: taken as injective.
- Tenants, ownership checks, request parsing, routes, sockets, outbox, notifications, logging and timing.
- A valuation of an older financial revision, which the source refuses: the valuation engine is in step with the committed positions.
- Upper-casing and trimming of symbols and currency codes: they arrive in normal form.
