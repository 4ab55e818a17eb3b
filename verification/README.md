# Didban: verified model of the money-keeping services

Didban keeps company books beside imported bank and ledger data: it pays for model requests
out of shared monthly budgets, allocates receipts to invoices, rolls bank balances forward,
projects receipts, closes and opens periods, reconciles rows, tracks cheques, prepares group
eliminations and attributes results to dimensions. This project models those state machines
and calculators in Dafny and proves what they keep over every run.

`dafny verify dfyconfig.toml` checks the whole project. One module stands for one service or
calculator:

| files | service |
|---|---|
| `ModelTariff`, `ModelGateway`, `ModelGatewaySafety`, `ModelGatewayGuarantees`, `ModelGatewayDispatch`, `ModelGatewaySettlement`, `ModelGatewayReopening`, `ModelGatewayRuns`, `ModelGatewayService` | budget reservations around model calls |
| `InvoiceEvidence`, `Invoices`, `InvoiceSafety`, `InvoiceGuarantees`, `InvoiceHistory`, `InvoiceTerms`, `InvoiceAllocations`, `InvoiceRuns`, `InvoiceService` | dated invoices, allocations and source revisions |
| `ReceiptTiming`, `ForecastPlanning`, `ForecastPlans`, `ForecastProjection` | receipt history, projections and the question loop |
| `InvoiceBalance`, `BankRoll`, `BankAnchors`, `BankTransfers`, `LedgerSplit` | the deterministic finance calculator |
| `PeriodEntries` | acceptance rule, closing and opening drafts |
| `GroupDecisions`, `Cheques`, `ChequeMoves`, `ChequeRuns` | exclusive reconciliation, cheque clearing |
| `OwnershipScope`, `Elimination`, `EliminationEvidence`, `Dimensions`, `DimensionRequests`, `DimensionReports` | consolidation scope, eliminations, dimension reports |
| `Options`, `Sums`, `VersionedLog` | missing values, sums and grouped totals, append-only logs with versions |

Where the source updates rows in place, a value-level specification (a store and one function
per transaction) carries the theorems about runs, and a class with the source's fields and
loops is proved to reach exactly that specification. Money is an integer count of 10^-6 IRR or
10^-24 USD, a price of 10^-18 USD; percentages count 10^-6; dates are day numbers. Record ids
are unique, the company clock does not go back, and each transaction is atomic.

## What the code does not promise

The proofs follow the code where it differs from what one might expect of it; each of these
has an exact condition and a concrete run or input.

* A failed model request can still complete: when its last attempt expired and is answered
  after all (`FailedIsFinalExactly`, `FailedRequestCompletesLate`).
* Reconciling an unknown cost does not look at the cap (`ReconcileKeepsCapExactly`,
  `CappedRunStaysWithinCapExactly`, `ReconciledMonthExceedsItsCap`).
* Reconciling an older attempt reopens a request whose current attempt still has an unknown
  cost, against the intent stated beside the waiting state (`ReopensWithUnknownCostExactly`,
  `SentAgainWhileCostUnknown`).
* An invoice's remaining on a past day can be negative (`AllocationKeepsPastExactly`,
  `NeverOverdrawnExactly`, `PastRemainingCanBeNegative`).
* Two lines of one reference can be eliminated beyond its net (`EliminatedExceedsNetExactly`,
  `EliminationCanExceedNet`).
* Clearing a returned cheque again charges the bank a second time (`EveryClearingIsCharged`,
  `ClearingChargesOnceExactly`, `ChequeIsChargedTwice`).
* The version check of a dimension allocation lets the first one be sent twice
  (`RepeatIsRefusedExactly`, `FirstAssignmentIsStoredTwice`).
* Ledger rows without an entry id escape the entry control (`OnlyUnenteredRowsEscapeTheControl`,
  `UnbalancedBookPasses`).

## Model

| member | source | states |
|---|---|---|
| `ModelTariff.CostWithinWorstCase` | apps/api/didban/model_gateway.py:186-201 | every usage that is charged at all costs at least zero and at most the worst case reserved from the same tariff |
| `ModelTariff.EveryTokenPaysItsPrice` | apps/api/didban/model_gateway.py:186-201 | whatever tokens a call consumed, it is charged the sum of their own prices; beyond a bound, with an unpriced cache write or a contradicted lifetime there is no cost |
| `ModelTariff.CostIsRefusedExactly` | apps/api/didban/model_gateway.py:186-198 | beyond a bound there is no cost; nor with a missing or negative counter, more cached and written tokens than input, an unpriced write or contradicting lifetime details; otherwise there is one |
| `ModelTariff.WorstCaseIsReached` | apps/api/didban/model_gateway.py:380-382 | the reservation is no larger than necessary: for every tariff some accepted usage costs exactly all of it |
| `ModelTariff.FiftyDigitsSuffice` | apps/api/didban/model_gateway.py:199-201 | every product of a hold and of an accepted cost, and the sums of those products, stay below 10^36, so decimal precision 50 rounds nothing |
| `ModelGatewaySafety.RunKeepsInv` | apps/api/didban/model_gateway.py:319-489 | in every interleaving of reserving, expiring, answering, reconciling and cap changes: each month's `reserved` is the sum of its held and unknown holds, `used` the sum of its settled costs, a held row is the current attempt of a dispatched request, attempts count the sends, and a proposal is present exactly on completed requests |
| `ModelGatewaySafety.HoldKeepsInv` | apps/api/didban/model_gateway.py:395-406 | taking a hold keeps all of those relations: the new row is the request's one held attempt |
| `ModelGatewaySafety.ExpiryKeepsInv` | apps/api/didban/model_gateway.py:324-329 | an overdue dispatch turns its hold into an unknown cost without freeing any money |
| `ModelGatewaySafety.RespondKeepsInv` | apps/api/didban/model_gateway.py:409-489 | settling, releasing or parking an answered hold keeps the books and the request in step, whichever attempt it answers |
| `ModelGatewaySafety.ReconcileKeepsInv` | apps/api/didban/model_gateway.py:544-561 | an administrator's figure for an unknown cost moves it from reserved to used and keeps every relation above |
| `ModelGatewaySafety.SetCapKeepsInv` | apps/api/didban/model_admin_service.py:52-74 | changing a month's caps touches no reserved or used amount |
| `ModelGatewayGuarantees.CompanyUsagesAddUp` | apps/api/didban/model_admin_service.py:107-119 | after any run, the per-company usage reports of a month, summed over the companies, equal that month's installation budget in used and in reserved |
| `ModelGatewayGuarantees.ReconcileKeepsCapExactly` | apps/api/didban/model_gateway.py:552-557 | a reconciled cost keeps the month within its cap if and only if what it adds to the hold fits the headroom left (the code has no such check) |
| `ModelGatewayRuns.ReconciledMonthExceedsItsCap` | apps/api/didban/model_gateway.py:552-557 | a concrete capped run: the cap is one hold, one request is sent and its answer is malformed, the figure entered is one unit above the hold, and the month has used more than its cap |
| `ModelGatewayGuarantees.CappedRunStaysWithinCapExactly` | apps/api/didban/model_gateway.py:380-396 | in capped mode `used + reserved <= cap` held in every month throughout a run if and only if every cost reconciled in it fitted the headroom at its time |
| `ModelGatewayGuarantees.CappedRunStaysWithinCap` | apps/api/didban/model_gateway.py:380-396 | in particular it holds throughout every run whose reconciled costs do not exceed their holds |
| `ModelGatewayGuarantees.HoldFitsEveryCap` | apps/api/didban/model_gateway.py:384-396 | when a request is sent in capped mode, the company's, the month's and the session's committed totals, the new hold included, are within their caps |
| `ModelGatewayGuarantees.HoldCommitsMaximum` | apps/api/didban/model_gateway.py:380-406 | a hold adds exactly its maximum to the company's committed month and exactly that to its session's |
| `ModelGatewayGuarantees.OverrunIsUnreachable` | apps/api/didban/model_gateway.py:467-471 | no reachable request ever carries the tariff-overrun code: that branch has no input |
| `ModelGatewayGuarantees.StoredTotalsFitFiftyDigits` | apps/api/didban/model_gateway.py:441-449 | the stored totals stay below 50 digits for up to 10^13 reservations |
| `ModelGatewayGuarantees.DispatchedExactlyWhileCurrentHoldStands` | apps/api/didban/model_gateway.py:395-406 | a request is dispatched if and only if it has a held reservation; there is at most one and it is the current attempt; sends equal attempts and never exceed the configured maximum |
| `ModelGatewayGuarantees.TerminalIsFinal` | apps/api/didban/model_gateway.py:330-331 | a completed, rejected or invalidated request never changes again, proposal included, whatever follows |
| `ModelGatewayGuarantees.ReservationsResolveOnce` | apps/api/didban/model_gateway.py:416-452 | a reservation row never returns to held, and once settled or released it is never touched again |
| `ModelGatewayGuarantees.LateAnswerSettlesCostOnly` | apps/api/didban/model_gateway.py:453-455 | an answer to a superseded attempt changes no request and no other row or month, and nothing at all when its row is already resolved |
| `ModelGatewayGuarantees.RetryWaitsItsBackoff` | apps/api/didban/model_gateway.py:472-477 | after a rate limit or a lost answer the request stays exactly as it is, with no further send, throughout any run whose calls for it come within 2^attempts seconds; a call from then on is not turned away for its timing |
| `ModelGatewayDispatch.SentExactly` | apps/api/didban/model_gateway.py:319-396 | a call is sent if and only if it is guarded, its request is due, tries and recent failures are within their limits, the month has a budget, the input fits, every field of the tariff is in range and the dearest outcome fits the three caps |
| `ModelGatewayDispatch.SentBooks` | apps/api/didban/model_gateway.py:395-406 | what is sent is the next attempt: dispatched with its deadline, one new held row at the dearest outcome, and that amount more in the month's reserved |
| `ModelGatewaySettlement.PricedAnswerBooksItsTokens` | apps/api/didban/model_gateway.py:427-449 | an answer that reports billable tokens settles its row at the sum of those tokens' prices; the month's used grows by that sum and the whole hold leaves reserved |
| `ModelGatewaySettlement.DoubtfulAnswerKeepsTheHold` | apps/api/didban/model_gateway.py:427-452 | no answer, an unreadable one, another model, tier or tool use, or usage that does not fit the tariff parks the row as unknown and charges the month nothing |
| `ModelGatewaySettlement.RefusalReleasesTheHold` | apps/api/didban/model_gateway.py:441-452 | a rate limit or a refusal releases the row and gives the whole hold back |
| `ModelGatewaySettlement.CurrentAnswerDecides` | apps/api/didban/model_gateway.py:456-477 | the current attempt's answer invalidates, retries with its delay, or fails the request |
| `ModelGatewaySettlement.CurrentAnswerIsRecorded` | apps/api/didban/model_gateway.py:456-477 | the request records the reason that belongs to the kind of answer |
| `ModelGatewaySettlement.PricedAnswerEndsTheRequest` | apps/api/didban/model_gateway.py:484-489 | a complete priced answer completes the request with its proposal, or rejects it without one |
| `ModelGatewaySettlement.UnpricedAnswerWaits` | apps/api/didban/model_gateway.py:478-482 | a complete answer of unknown cost leaves the request waiting for reconciliation |
| `ModelGatewaySettlement.ReconciledExactly` | apps/api/didban/model_gateway.py:544-561 | a cost is reconciled if and only if an active administrator gives a bounded amount and a reference for an unknown row of the company; the month uses it in place of the hold |
| `ModelGatewaySettlement.CapIsSetExactly` | apps/api/didban/model_admin_service.py:52-74 | caps are set if and only if they are bounded amounts, the version is current and the cap covers what is committed; nothing else changes |
| `ModelGatewaySettlement.ProposalWasDelivered` | apps/api/didban/model_gateway.py:456-489 | over any run, a stored proposal is one that a guarded, complete, priced answer to the request's current attempt delivered |
| `ModelGatewayGuarantees.FailedIsFinalExactly` | apps/api/didban/model_gateway.py:330-344 | a failed request stays exactly as it is over every later run if and only if no answer to its last attempt is outstanding with an unknown cost |
| `ModelGatewayRuns.FailedRequestCompletesLate` | apps/api/didban/model_gateway.py:342-344 | a concrete run: sent, expired, out of attempts and failed, then answered late and completed |
| `ModelGatewayReopening.WaitingMeansUnknown` | apps/api/didban/model_gateway.py:478-482 | in every run a request waits for reconciliation only while the cost of its current attempt is unknown |
| `ModelGatewayReopening.ReopensWithUnknownCostExactly` | apps/api/didban/model_gateway.py:559-561 | any reconciled row makes a waiting request sendable again at once, and the cost it waited for is still unknown if and only if the row was not its current attempt |
| `ModelGatewayRuns.SentAgainWhileCostUnknown` | apps/api/didban/model_gateway.py:559-561 | a concrete run: the second attempt's cost is unknown, the lost first attempt is reconciled, and a third is sent while the second is still unknown |
| `ModelGatewayService.GatewayService.constructor` | apps/api/didban/model_gateway.py:300-303 | a new gateway starts with empty books that satisfy every relation |
| `ModelGatewayService.GatewayService.Reserve` | apps/api/didban/model_gateway.py:319-406 | the reserving transaction reaches exactly the specified store and reply; a failed requirement leaves everything as it was |
| `ModelGatewayService.GatewayService.ExpireDispatch` | apps/api/didban/model_gateway.py:324-329 | exactly the held rows of the overdue request become unknown |
| `ModelGatewayService.GatewayService.CommittedTotals` | apps/api/didban/model_gateway.py:383-388 | one pass yields the committed totals of the company's month and of one session |
| `ModelGatewayService.GatewayService.TryDispatch` | apps/api/didban/model_gateway.py:336-406 | configuration, retry limit, circuit breaker, missing policy or tariff and the caps are decided in the source's order |
| `ModelGatewayService.GatewayService.Commit` | apps/api/didban/model_gateway.py:383-406 | the hold is taken if and only if none of the three caps would be exceeded |
| `ModelGatewayService.GatewayService.Settle` | apps/api/didban/model_gateway.py:409-489 | the settling transaction reaches exactly the specified store; a resolved row or a superseded attempt leaves the request alone |
| `ModelGatewayService.GatewayService.ResolveHold` | apps/api/didban/model_gateway.py:441-452 | a known cost settles, a known rejection releases, anything else parks the row as unknown, and the month follows |
| `ModelGatewayService.GatewayService.ConcludeRequest` | apps/api/didban/model_gateway.py:456-489 | the current attempt's outcome: invalidated, failed, retried with doubling delay, waiting for reconciliation, completed or rejected |
| `ModelGatewayService.GatewayService.ReconcileUnknown` | apps/api/didban/model_gateway.py:544-561 | succeeds exactly on an unknown row of that company, with an admissible cost and a reference, entered by an active administrator |
| `ModelGatewayService.GatewayService.ConfigureBudget` | apps/api/didban/model_admin_service.py:52-74 | a cap is stored only at the expected version and never below what is already committed |
| `ModelGatewayService.GatewayService.Usage` | apps/api/didban/model_admin_service.py:107-119 | one pass yields the company's used, reserved and unknown amounts of the month |
| `InvoiceEvidence.LineageWalk` | apps/api/didban/native_invoice_evidence.py:180-205 | the walk ends even on cyclic links and succeeds if and only if a chain of replacements leads back to the original with every ancestor reversed by the date |
| `InvoiceEvidence.WalkFollowsLineage` | apps/api/didban/native_invoice_evidence.py:180-205 | the walk and the existence of such a chain are equivalent |
| `InvoiceEvidence.OneJournalIsEvidence` | apps/api/didban/native_invoice_evidence.py:69-93 | at any date an operation has at most one accepted journal, when each journal has at most one replacement |
| `InvoiceEvidence.EvidenceIsLive` | apps/api/didban/native_invoice_evidence.py:206-217 | accepted evidence is unreversed, dated by then, positive, and everything it replaced is reversed |
| `InvoiceEvidence.EvidenceIsAcceptedExactly` | apps/api/didban/native_invoice_evidence.py:61-217 | evidence is accepted if and only if the chosen journal is sound, positive, dated by then, no reversal, unreversed and descends from the original over reversed journals; it states that journal's own facts |
| `InvoiceSafety.RunKeepsInv` | apps/api/didban/native_invoice_service.py:297-505 | every run of create, change terms, allocate, reverse, adopt, new evidence and clock steps keeps: no double counting at any date, no invoice charged beyond its source today, revisions in date and version order |
| `InvoiceSafety.NewAllocationFits` | apps/api/didban/native_invoice_service.py:422-441 | wherever a new allocation is visible it meets only allocations of the same journal and together they fit that journal, past and future |
| `InvoiceSafety.NewestIsLast` | apps/api/didban/native_invoice_revisions.py:33-60 | the as-of source (newest date, then version) is the last revision in version order |
| `InvoiceSafety.DetailRemaining` | apps/api/didban/native_invoice_service.py:107-144 | a stated remaining is the selected source's amount less what is live on that day |
| `InvoiceGuarantees.NoReceiptIsDoubleCounted` | apps/api/didban/native_invoice_service.py:422-441 | at every date, over all invoices, the visible allocations of one receipt or payment cite one journal and total at most its amount, in every run |
| `InvoiceGuarantees.RemainingTodayInRange` | apps/api/didban/native_invoice_service.py:397-404 | whenever today's view states a remaining it lies between zero and the selected source's amount |
| `InvoiceGuarantees.AdoptionKeepsThePast` | apps/api/didban/native_invoice_revisions.py:126-190 | adopting a replacement leaves every invoice's whole view on every earlier day unchanged |
| `InvoiceGuarantees.ReversalKeepsThePast` | apps/api/didban/native_invoice_service.py:465-505 | reversing an allocation leaves every invoice's whole view on every earlier day unchanged |
| `InvoiceGuarantees.AllocationKeepsEarlierDays` | apps/api/didban/native_invoice_service.py:434-441 | an allocation changes no view dated before it takes effect |
| `InvoiceGuarantees.TermsKeepEarlierDays` | apps/api/didban/native_invoice_service.py:79-88 | new terms change no view dated before they take effect |
| `InvoiceHistory.PastIsSettled` | apps/api/didban/native_invoice_service.py:91-171 | over any later run that dates nothing back to it, every invoice's whole view of a past day stays what it was, whatever is created, allocated, reversed, adopted or posted since |
| `InvoiceHistory.SameProof` | apps/api/didban/native_invoice_evidence.py:180-217 | evidence posted after a day, read on any later day, proves the same about that day |
| `InvoiceTerms.ShownTermsAreNewest` | apps/api/didban/native_invoice_service.py:79-88 | the terms shown have taken effect by the day, and no other such terms of the invoice are later, or as late with a higher version |
| `InvoiceTerms.ShownSourceIsNewest` | apps/api/didban/native_invoice_revisions.py:33-60 | the source shown is the invoice's own until a revision takes effect, and then the newest one's by date and version |
| `InvoiceTerms.TermsRunInOrder` | apps/api/didban/native_invoice_service.py:263-294 | in every run an invoice's terms are numbered 1, 2, 3, dated in that order and never before the invoice |
| `InvoiceTerms.NewTermsAreShown` | apps/api/didban/native_invoice_service.py:342-359 | after any run new terms are taken if and only if they are admissible, and every view from their effective date on shows them |
| `InvoiceTerms.AdoptionIsNumbered` | apps/api/didban/native_invoice_revisions.py:126-190 | an adoption appends one revision dated today and numbered one more than the invoice has |
| `InvoiceAllocations.CreatedExactly` | apps/api/didban/native_invoice_service.py:297-339 | after any run an invoice is created if and only if its operation is a service with standing evidence the caller has seen, under its reference, once, and no date precedes it; with its terms numbered 1 |
| `InvoiceAllocations.AllocatedExactly` | apps/api/didban/native_invoice_service.py:362-420 | an allocation is taken if and only if its evidence stands and version, availability, kind, party, date, remaining, unreversed use of the receipt and its one use on this invoice allow it |
| `InvoiceAllocations.EffectiveDateIsLatest` | apps/api/didban/native_invoice_service.py:422-441 | after any run the effective date is the latest of the receipt's date, the invoice's revisions and, for a receipt used again or a replacement, today |
| `InvoiceGuarantees.AllocationKeepsPastExactly` | apps/api/didban/native_invoice_service.py:397-441 | one allocation keeps every day's remaining non-negative if and only if its amount fits the invoice on every day from its effective date to today (the code checks today only) |
| `InvoiceGuarantees.NeverOverdrawnExactly` | apps/api/didban/native_invoice_service.py:107-144 | over a whole run no day was ever overdrawn if and only if every allocation of the run met that condition |
| `InvoiceGuarantees.FollowingReversalsFits` | apps/api/didban/native_invoice_service.py:434-441 | an allocation that takes effect no earlier than any reversal on its invoice meets the condition |
| `InvoiceGuarantees.PastRemainingNonNegative` | apps/api/didban/native_invoice_service.py:141-144 | in such a run every remaining stated for any day is at least zero |
| `InvoiceRuns.PastRemainingCanBeNegative` | apps/api/didban/native_invoice_service.py:422-441 | a concrete run without it: the view of an invoice of 100 states a remaining of -100 on a past day |
| `InvoiceService.InvoiceBook.LinesAt` | apps/api/didban/native_invoice_service.py:109-143 | the pass over allocations yields the visible lines, the amount used and whether any live line lost its evidence |
| `InvoiceService.InvoiceBook.View` | apps/api/didban/native_invoice_service.py:91-171 | the view as of a day, its reason when unavailable and its remaining |
| `InvoiceService.InvoiceBook.CapacityOf` | apps/api/didban/native_invoice_service.py:193-206 | what unreversed allocations leave of a receipt; refused while one of them cites another journal |
| `InvoiceService.InvoiceBook.CreateInvoice` | apps/api/didban/native_invoice_service.py:297-339 | one invoice per service operation, under the operation's own reference, stored with its first terms or not at all |
| `InvoiceService.InvoiceBook.RecordTerms` | apps/api/didban/native_invoice_service.py:263-294 | terms are recorded exactly when their dates follow the invoice and the earlier terms |
| `InvoiceService.InvoiceBook.ChangeTerms` | apps/api/didban/native_invoice_service.py:342-359 | new terms need the current version, a valid source, a reason and a date not in the future |
| `InvoiceService.InvoiceBook.AllocatableSource` | apps/api/didban/native_invoice_service.py:366-420 | all requirements of an allocation: version, availability, kind, party, date, remaining, capacity, one live allocation per receipt |
| `InvoiceService.InvoiceBook.AllocationDate` | apps/api/didban/native_invoice_service.py:422-441 | the effective date: after the last revision, and today when a released receipt or a replacement is used |
| `InvoiceService.InvoiceBook.AllocateReceipt` | apps/api/didban/native_invoice_service.py:362-462 | one row is appended and the version bumped exactly when every requirement holds |
| `InvoiceService.InvoiceBook.ReverseAllocationRow` | apps/api/didban/native_invoice_service.py:465-505 | an allocation is reversed once, dated today, at the current version and with a reason |
| `InvoiceService.InvoiceBook.AdoptableSource` | apps/api/didban/native_invoice_revisions.py:126-165 | the replacement that would be adopted, only once, with a reason and with every allocation released |
| `InvoiceService.InvoiceBook.AdoptReplacement` | apps/api/didban/native_invoice_revisions.py:126-190 | one revision dated today with the next version number is appended exactly then |
| `ReceiptTiming.MedianAnswersExactlyOnPositiveTotal` | apps/api/didban/forecast_planning.py:80-93 | the median answers if and only if the total is positive: the raise after the loop is dead code |
| `ReceiptTiming.MedianIsMedian` | apps/api/didban/forecast_planning.py:80-93 | on positive amounts half the paid mass arrived by the answer and less than half before it |
| `ReceiptTiming.MedianIsUnique` | apps/api/didban/forecast_planning.py:80-93 | only one delay has that property |
| `ReceiptTiming.MedianIgnoresOrder` | apps/api/didban/forecast_planning.py:80-93 | the answer does not depend on the order of the events |
| `ReceiptTiming.MedianMinimisesDeviation` | apps/api/didban/forecast_planning.py:80-93 | no integer delay has a smaller amount-weighted sum of absolute deviations |
| `ReceiptTiming.MedianInDates` | apps/api/didban/forecast_planning.py:80-93 | over the dates themselves: at least half the amount was paid by that many days after its due date and less than half before |
| `ReceiptTiming.HabitIsMedian` | apps/api/didban/forecast_planning.py:80-93 | when everything was paid k days after its due date the answer is k |
| `ReceiptTiming.WeightedMedianDelay` | apps/api/didban/forecast_planning.py:80-93 | the scan over the sorted events computes that median |
| `ReceiptTiming.RepeatedRowsChangeNothing` | apps/api/didban/forecast_planning.py:62-77 | telling a payment again under its identity, from the calibration or the financial file and at any later position, changes neither the selected events nor the ambiguous parties |
| `ReceiptTiming.OneEventPerConsistentIdentity` | apps/api/didban/forecast_planning.py:62-70 | an identity contributes exactly one event if its rows agree and none otherwise |
| `ReceiptTiming.HistoryIsSelectedExactly` | apps/api/didban/forecast_planning.py:47-77 | an identity has an event if and only if its rows agree in party, invoice, dates and amount; a party is ambiguous if and only if a row of it disagrees or two of its events tell one payment under both families |
| `ReceiptTiming.GroupByIdentity` | apps/api/didban/forecast_planning.py:53-59 | the pass over the rows groups exactly the window's rows by identity, in order of first appearance |
| `ReceiptTiming.History` | apps/api/didban/forecast_planning.py:51-77 | the events by party are exactly the selected ones in order, and the ambiguous parties exactly those with a contradiction |
| `ForecastPlanning.HistoryKeepsTheMoney` | apps/api/didban/native_forecast_planning.py:18-50 | merging a receipt's allocations into one event keeps the money: an unambiguous history weighs exactly what was received in the window |
| `ForecastPlanning.EnoughHistoryProjects` | apps/api/didban/native_forecast_planning.py:102-116 | with a due date and three unambiguous receipts the projection is the due date moved by their weighted median, stopped only by the calendar's range |
| `ForecastProjection.HabitIsProjected` | apps/api/didban/native_forecast_planning.py:102-116 | a customer who paid at least three receipts, each k days after its due date, is expected k days after the next due date |
| `ForecastProjection.HistoryIsProjected` | apps/api/didban/native_forecast_planning.py:102-116 | any uncontradicted history of three journals projects by a delay by which half the amount had been paid and before which less than half had |
| `ForecastProjection.ProjectionDoubtsExactly` | apps/api/didban/native_forecast_planning.py:18-50 | no due date, contradicting receipts of one journal, or fewer than three journals in the window: each doubt is given exactly then |
| `ForecastProjection.InvoiceIsAskedAbout` | apps/api/didban/native_forecast_planning.py:76-158 | an unanswered open invoice is expected on the date its terms give, or asked about: a passed date, a missing payment date, or the doubt of its projection |
| `ForecastProjection.PlanIsAskedAbout` | apps/api/didban/native_forecast_planning.py:181-203 | an unanswered plan is asked about its link when it names an invoice, and about a missing or passed date |
| `ForecastPlanning.Prepare` | apps/api/didban/native_forecast_planning.py:53-204 | the two passes produce exactly the questions, events and unavailable items of the invoices and plans in order |
| `ForecastPlans.AnsweredKeysAreSettled` | apps/api/didban/native_forecast_planning.py:70-147 | a question is only ever asked about a key of the snapshot that has no answer yet |
| `ForecastPlans.ReplayKeepsInv` | apps/api/didban/native_forecast_service.py:201-258 | every sequence of answers keeps: version is one plus the answers given, waiting exactly while a question is open, at most one publication and of exactly those answers |
| `ForecastPlans.AnswersAreBounded` | apps/api/didban/native_forecast_service.py:201-258 | however often the plan is answered it takes at most one answer per invoice and two per plan, and it is published exactly when nothing is left to ask |
| `ForecastPlans.PublishedIsFinal` | apps/api/didban/native_forecast_service.py:201-210 | after publication no answer changes anything |
| `ForecastPlans.ConversationEnds` | apps/api/didban/native_forecast_service.py:119-164 | whatever is replied, answering the first open question over and over ends in one publication after no more answers than there are unanswered keys |
| `ForecastPlans.PublishedCoversEachInvoiceOnce` | apps/api/didban/native_forecast_planning.py:160-180 | in a published forecast an invoice with a positive or unknown remaining is exactly once an event or unavailable, a paid one never |
| `ForecastPlans.PublishedCoversEachPlanOnce` | apps/api/didban/native_forecast_planning.py:181-203 | a plan appears exactly once unless the person said an invoice covers it |
| `ForecastPlans.PublishedHonoursAnswers` | apps/api/didban/native_forecast_planning.py:76-90 | what a person answered about an open invoice is what is published: the given date with the whole remaining, or the invoice as unavailable |
| `ForecastProjection.PublishedFollowsTerms` | apps/api/didban/native_forecast_planning.py:76-135 | an open invoice nobody was asked about is published by its recorded terms: declared unknown, on its expected date, a purchase on its due date, a sale on its customer's projection |
| `ForecastProjection.PublishedFollowsPlan` | apps/api/didban/native_forecast_planning.py:181-203 | a published plan is left out, unavailable, on the date given or on its own due date, as its link and its answers say |
| `ForecastProjection.UnknownBalanceIsPublished` | apps/api/didban/native_forecast_planning.py:160-180 | an invoice without a known balance is published as unavailable for that reason |
| `ForecastPlans.PublishedEventsLieAhead` | apps/api/didban/native_forecast_planning.py:136-158 | every published event is dated after the snapshot, and an invoice's event carries its whole remaining in its own direction |
| `ForecastPlans.ForecastPlan.constructor` | apps/api/didban/native_forecast_service.py:175-198 | a new plan publishes at once when nothing needs asking |
| `ForecastPlans.ForecastPlan.FinishPlan` | apps/api/didban/native_forecast_service.py:119-172 | publishes one run exactly when no question is open, limited if anything is unavailable or obligations are incomplete |
| `ForecastPlans.ForecastPlan.Answer` | apps/api/didban/native_forecast_service.py:201-258 | an answer is accepted exactly at the current version, while waiting, for an open question and of its kind |
| `InvoiceBalance.InvoiceRemaining` | apps/api/didban/finance.py:249-285 | the loops compute remaining and paid, or the source's reason for having neither; paid plus remaining is the invoice amount |
| `InvoiceBalance.KnownBalanceIsPaid` | apps/api/didban/finance.py:249-285 | over the records themselves: a known balance is the amount less what dated events of the invoice's reference and direction and its unreversed allocations paid, events a used snapshot covers replaced by its paid amount |
| `InvoiceBalance.BalanceIsUnknownExactly` | apps/api/didban/finance.py:249-280 | each reason for an unknown balance is given exactly in its case: an event id told twice, a late or unnamed snapshot, payments without dates |
| `InvoiceBalance.SnapshotRefinesReplayExactly` | apps/api/didban/finance.py:256-272 | a dated snapshot gives the answer of the full replay if and only if its paid amount is the sum of the events it stands for |
| `InvoiceBalance.FaithfulSnapshotReplays` | apps/api/didban/finance.py:268-272 | a snapshot that pays and names exactly the events up to its date always does |
| `BankRoll.BalanceOfAccount` | apps/api/didban/finance.py:188-202 | the newest unique anchor plus the movements after its cut-off, or nothing |
| `BankRoll.InternalMeansPaired` | apps/api/didban/finance.py:176-185 | a row is internal if and only if its reference group is two opposite non-zero legs on two accounts |
| `BankTransfers.InternalHasOtherLegExactly` | apps/api/didban/finance.py:176-185 | a row is internal if and only if it may transfer and one other such row of its reference has the opposite non-zero amount on another account, and there is no third |
| `BankRoll.InternalLegsCancel` | apps/api/didban/finance.py:176-185 | accepted internal legs cancel: internal inflow equals internal outflow |
| `BankRoll.PeriodTotals` | apps/api/didban/finance.py:225-235 | the pass over the period yields the internal, external, total and net sums |
| `BankRoll.DailyRoll` | apps/api/didban/finance.py:236-245 | the walk over the days yields every day of the period in order, each balance known only when every account is |
| `BankRoll.BalancesOf` | apps/api/didban/finance.py:208-211 | one balance per account, in the order of the accounts |
| `BankRoll.CashOf` | apps/api/didban/finance.py:212-218 | the pass over the account list yields the same cash as the pass over the last day, and the subset of anchored accounts when it is incomplete |
| `BankRoll.OneDay` | apps/api/didban/finance.py:238-244 | a day's flows are those of its own rows, and its balance the sum of the accounts' balances that day |
| `BankRoll.Bank` | apps/api/didban/finance.py:205-246 | cash is the sum over the account list when coverage is complete and every account has its anchor, the anchored subset stands in otherwise, and the cash is the last day's balance |
| `BankRoll.DaysAddUpToTotals` | apps/api/didban/finance.py:225-245 | daily inflow, outflow and net sum to the period's totals, and with unique ids internal transfers wash out of the net |
| `BankRoll.AnchorStatesItsBoundary` | apps/api/didban/finance.py:196-202 | on its own day an end-of-day anchor is the balance and a start-of-day anchor the balance before that day's movements |
| `BankAnchors.BalanceFollowsItsAnchor` | apps/api/didban/finance.py:188-202 | from the rows' own fields: an end-of-day anchor is its balance and later movements, a start-of-day one includes its own day; the row's boundary decides, else the account's opening one, else there is no balance |
| `BankAnchors.NoBalanceWithoutOneNewest` | apps/api/didban/finance.py:189-195 | without exactly one anchor on the newest stated day there is no balance |
| `BankRoll.BalanceRollsForward` | apps/api/didban/finance.py:238-245 | without an anchor that day, a balance is known exactly when the previous day's is, and is that balance plus the day's net |
| `BankRoll.BalanceMovesByNetAndCorrections` | apps/api/didban/finance.py:188-202 | between any two days in a row with known balances, the balance moves by the day's net and by what the accounts' anchors correct, and by nothing else |
| `BankRoll.AnchorContinuesExactly` | apps/api/didban/finance.py:196-202 | across a day with one anchor an account is carried forward as on any other day if and only if the anchor states the balance carried up to its boundary |
| `BankRoll.BalanceRollsOver` | apps/api/didban/finance.py:238-245 | over any stretch without anchors the closing balance is the opening one plus the stretch's net |
| `LedgerSplit.EntryControl` | apps/api/didban/finance.py:120-124 | the control passes if and only if every identified entry nets to zero per date; then all balances sum to the net of the rows without an entry |
| `LedgerSplit.SplitOf` | apps/api/didban/finance.py:149-158 | the positive and negative parts of one side, whose difference is the net of its rows |
| `LedgerSplit.GrossSplitsAreExact` | apps/api/didban/finance.py:149-158 | receivables less receivable credits are the receivable net, and each debt component less its opposite balance is the negated net of its roles |
| `LedgerSplit.EachBalanceOnOneSide` | apps/api/didban/finance.py:149-158 | each counted balance stands whole on one side: positive on one or negative on the other |
| `LedgerSplit.SplitsFollowTheLedger` | apps/api/didban/finance.py:114-158 | over the whole ledger: receivables less their credits, and each debt less its opposite balance, are what was debited and credited on those roles up to the day |
| `LedgerSplit.BalancedEntriesZeroTheBook` | apps/api/didban/finance.py:120-124 | when every row has an entry and the control passes, all balances sum to zero |
| `LedgerSplit.OnlyUnenteredRowsEscapeTheControl` | apps/api/didban/finance.py:120-148 | otherwise they sum to exactly the net of the rows without an entry |
| `LedgerSplit.UnbalancedBookPasses` | apps/api/didban/finance.py:120-124 | a book of one row without an entry id passes the control and does not balance by its amount |
| `PeriodEntries.ValidateLines` | apps/api/didban/accounting_service.py:67-102 | accepted if and only if two to two hundred one-sided storable lines have equal totals; the canonical lines are the input in rials and acceptable again |
| `PeriodEntries.AcceptableExactly` | apps/api/didban/accounting_service.py:67-102 | lines are accepted if and only if there are two to two hundred, each debits or credits but not both, and they cancel; a toman is stored as ten rials |
| `PeriodEntries.Trial` | apps/api/didban/posting_service.py:386-427 | one row per account and party, each the net of its lines |
| `PeriodEntries.CreateClosing` | apps/api/didban/closing_service.py:203-233 | the closing draft, or the refusal for size, emptiness or line count |
| `PeriodEntries.CreateOpening` | apps/api/didban/closing_service.py:264-281 | the opening draft, or the refusal |
| `PeriodEntries.ClosingIsRefusedExactly` | apps/api/didban/closing_service.py:203-233 | a closing is refused exactly for an amount that cannot be stored, for nothing to close, or for more than 200 lines, and otherwise has one line per non-zero selected balance and one for a non-zero net |
| `PeriodEntries.OpeningIsRefusedExactly` | apps/api/didban/closing_service.py:264-281 | an opening likewise, with one line per non-zero selected balance |
| `PeriodEntries.ClosingDraftIsAcceptable` | apps/api/didban/closing_service.py:203-233 | every closing draft satisfies the acceptance rule |
| `PeriodEntries.PostedClosingZeroesSelection` | apps/api/didban/closing_service.py:203-233 | posting it zeroes every selected account and party, moves exactly their net to the result account and changes no other balance |
| `PeriodEntries.OpeningReproducesSelection` | apps/api/didban/closing_service.py:264-281 | an opening reproduces the selected balances pair by pair, and is accepted if and only if they cancel |
| `PeriodEntries.CompleteOpeningBalances` | apps/api/didban/native_opening_service.py:142-157 | from balanced journals, an opening that leaves no non-zero account out is accepted and reproduces every balance |
| `PeriodEntries.MissingExactly` | apps/api/didban/native_opening_service.py:142-157 | an account is missing from an opening exactly when it has a non-zero balance and was not selected |
| `PeriodEntries.ActivePosted` | apps/api/didban/closing_service.py:100-127 | a kind and period is active if and only if some journal on the correction chain of one of its posted drafts is not reversed |
| `PeriodEntries.ChainActive` | apps/api/didban/closing_service.py:114-126 | one chain is found active if and only if some journal on it is not reversed, cycles or not |
| `GroupDecisions.AcceptedGroupsNeverShareRows` | apps/api/didban/group_match_service.py:110-120 | whichever of the three services decide, in whatever order: accepted groups are pairwise disjoint in bank and in ledger rows, and versions per key run 1, 2, 3 |
| `GroupDecisions.RefusedExactlyWhileRowsAreHeld` | apps/api/didban/group_match_service.py:110-120 | over a whole run, an acceptance that is fresh, balanced, at the next version and clear of single-row decisions is refused if and only if some earlier recorded acceptance of another key, not decided again since, holds one of its rows |
| `GroupDecisions.StandingIsCurrent` | apps/api/didban/group_match_service.py:99-107 | a recorded request whose key has not been decided since is what the latest decision of its key says |
| `GroupDecisions.RecordedExactly` | apps/api/didban/group_match_service.py:145-183 | over any run, a request is recorded if and only if it names one more than was recorded for its key, is not a stale reference decision and, to accept, is fresh, balanced and clear of single rows and of every group that holds one of its rows |
| `GroupDecisions.HeldUntilItsKeyIsDecided` | apps/api/didban/group_match_service.py:99-120 | whatever is decided about other groups, an accepted group stays as it was and no other accepted group gets one of its rows until its own key is decided again |
| `GroupDecisions.RejectionReleasesRows` | apps/api/didban/group_match_service.py:145-183 | a recorded rejection releases exactly what its key held: the acceptance that follows is recorded if and only if no standing acceptance of a third key holds one of its rows |
| `GroupDecisions.DecisionLog.constructor` | apps/api/didban/group_match_service.py:99-107 | an empty log is exclusive and gapless |
| `GroupDecisions.DecisionLog.LatestByKey` | apps/api/didban/group_match_service.py:99-107 | the ordered pass keeps the last decision of each key |
| `GroupDecisions.DecisionLog.CheckCapacity` | apps/api/didban/group_match_service.py:110-120 | free exactly when no other accepted group overlaps on either side |
| `GroupDecisions.DecisionLog.DecideReference` | apps/api/didban/group_match_service.py:123-192 | an outdated run is refused before anything else; then a candidate is found among today's proposals and decided by the shared rule, and an unknown key changes nothing |
| `GroupDecisions.DecisionLog.DecidePreview` | apps/api/didban/manual_group_service.py:234-302 | a stored preview is rejected whatever its freshness and accepted only while current, balanced and free |
| `GroupDecisions.DecisionLog.DecideCandidate` | apps/api/didban/native_bank_match_service.py:275-345 | the rule the three writers share, with the native writer checking single-row decisions on the bank side only |
| `Cheques.RunKeepsInv` | apps/api/didban/cheque_service.py:39-257 | every run of registering, acting and importing bank rows keeps the logs, the bank capacities and the clearances consistent |
| `Cheques.BankMovementIsNeverOvercharged` | apps/api/didban/cheque_service.py:134-152 | the clearances charged to a bank movement never exceed its absolute amount |
| `Cheques.ChequeIsItsLog` | apps/api/didban/cheque_service.py:174-239 | a cheque's state and version are the replay of its log: registered, then allowed moves in date order, each from where the last ended |
| `Cheques.OnlyReceivedMoveOn` | apps/api/didban/cheque_service.py:185-208 | only received cheques are ever deposited or endorsed, and dates never go back |
| `ChequeMoves.PerformedExactly` | apps/api/didban/cheque_service.py:90-239 | after any run an action is performed if and only if version, dates, the move from the last logged state and, to clear, every field of the bank row allow it; it adds one event and a clearing charges its movement |
| `ChequeMoves.RegisteredExactly` | apps/api/didban/cheque_service.py:39-87 | a cheque is registered exactly on valid dates and amount, in the first state of its direction |
| `Cheques.CancelledIsFinal` | apps/api/didban/cheque_service.py:185-202 | a cancelled cheque never changes again |
| `Cheques.EveryClearingIsCharged` | apps/api/didban/cheque_service.py:231-236 | a return gives no bank amount back: the total charged for a cheque is its amount times the clearings in its log |
| `Cheques.ClearingChargesOnceExactly` | apps/api/didban/cheque_service.py:134-152 | a clearing keeps the total charged for its cheque within the cheque's amount if and only if the cheque's log holds no earlier clearing |
| `ChequeRuns.ChequeIsChargedTwice` | apps/api/didban/cheque_service.py:231-236 | a concrete run: a cheque of 100 cleared, returned and cleared again has been charged 200 on two movements |
| `Cheques.ChequeBook.Register` | apps/api/didban/cheque_service.py:39-87 | a cheque and its first event are stored exactly when the dates, period and amount are valid |
| `Cheques.ChequeBook.UsedOf` | apps/api/didban/cheque_service.py:134-146 | what earlier clearances already took from a movement |
| `Cheques.ChequeBook.ValidateClearance` | apps/api/didban/cheque_service.py:90-153 | a movement is accepted as evidence exactly when activity, kind, date, party, sign, account and remaining capacity all agree |
| `Cheques.ChequeBook.Perform` | apps/api/didban/cheque_service.py:156-257 | an action is performed exactly when version, dates, transition, endorsement and clearance rules allow it |
| `OwnershipScope.OwnershipDeclarations` | apps/api/didban/consolidation_service.py:306-336 | the fixpoint ends with exactly the anchor company's connected component over the latest 100% mappings within the group, and a draft is allowed if and only if every group company can be reached |
| `OwnershipScope.Sweep` | apps/api/didban/consolidation_service.py:324-330 | one pass stays inside the component, and a pass that adds nothing has found it closed |
| `OwnershipScope.LatestIsNewest` | apps/api/didban/consolidation_service.py:309-316 | the kept mapping of a pair of companies is its newest version |
| `OwnershipScope.RelevantExactly` | apps/api/didban/consolidation_service.py:306-323 | two companies are linked exactly when both belong to the group and the pair's last declaration is for 100 percent |
| `Elimination.EvidencedAmount` | apps/api/didban/consolidation_service.py:276-303 | the pass over a source's lines accepts a line exactly when it is the whole unblurred net of its reference |
| `Elimination.CreateDraft` | apps/api/didban/consolidation_service.py:385-554 | the pair loop builds exactly the accepted rows or refuses the draft; profit and net trade position stay as they were |
| `Elimination.AcceptedPair` | apps/api/didban/consolidation_service.py:385-519 | both lines of an accepted pair are positive, equal, opposed, unused and the whole net of their own references |
| `EliminationEvidence.EliminatedExactly` | apps/api/didban/consolidation_service.py:276-519 | a requested pair is eliminated if and only if both lines are current, of matching parties, reference and date, of opposite roles, each the undoubted whole net of its reference, and of one positive worth |
| `EliminationEvidence.UnknownLineIsRefused` | apps/api/didban/consolidation_service.py:385-418 | a pair naming a company without books or a line not in them is refused |
| `Elimination.NoLineIsEliminatedTwice` | apps/api/didban/consolidation_service.py:419-424 | an accepted draft uses two different lines per pair and no line twice |
| `Elimination.EliminatedExceedsNetExactly` | apps/api/didban/consolidation_service.py:464-519 | a draft takes a reference's net once per requested line of it, so it takes more than is outstanding if and only if two of its lines are requested |
| `Elimination.EliminationCanExceedNet` | apps/api/didban/consolidation_service.py:464-519 | a concrete accepted draft: 200 eliminated where 100 is outstanding |
| `Dimensions.SharesAreTheLine` | apps/api/didban/dimensions_service.py:126-160 | exact shares of 100 percent add up to the line, so the final sum check cannot fail |
| `Dimensions.RepeatIsRefusedExactly` | apps/api/didban/dimensions_service.py:108-114 | after any run, a request sent twice is stored no more than once if and only if it was refused the first time or some request of that run had been stored for its line |
| `Dimensions.FirstAssignmentIsStoredTwice` | apps/api/didban/dimensions_service.py:108-114 | a concrete run: one request sent twice to a fresh line is stored as versions 1 and 2 |
| `Dimensions.VersionsRunWithoutGaps` | apps/api/didban/dimensions_service.py:161-183 | the allocations of each line are numbered 1, 2, 3 in the order they were made |
| `DimensionRequests.StoredExactly` | apps/api/didban/dimensions_service.py:103-183 | after any run an assignment is stored if and only if it names the last stored version (1 when none), its dimensions differ, each share takes a whole 10^-6 of the line within six places, the percentages make 100 and a direct one is single |
| `Dimensions.EveryAllocationIsWhole` | apps/api/didban/dimensions_service.py:103-183 | every stored allocation attributes exactly its line as it stood, role included |
| `Dimensions.ReportConservesTotals` | apps/api/didban/dimensions_service.py:208-250 | for revenue and for expense the buckets plus the unassigned remainder are the selected lines, whatever was assigned before and whichever native lines were reclassified since |
| `Dimensions.ReportConservesParts` | apps/api/didban/dimensions_service.py:231-250 | a report's buckets and remainder are all the amounts that went into it |
| `Dimensions.BucketHoldsItsShares` | apps/api/didban/dimensions_service.py:235-250 | each bucket holds exactly the shares given to its dimension |
| `DimensionReports.AssignedLineIsReported` | apps/api/didban/dimensions_service.py:208-250 | after any run, a line whose last stored request still applies is shown as each requested percentage of it in its dimension's bucket, on its side, with nothing unassigned |
| `DimensionReports.UnassignedLineIsReported` | apps/api/didban/dimensions_service.py:215-234 | a line never stored, or a native one whose role changed since, is shown whole as unassigned |
| `DimensionReports.ReportsAddUp` | apps/api/didban/dimensions_service.py:208-250 | a report over more lines is the sum of the reports, bucket by bucket and remainder by remainder |
| `Dimensions.BuildReport` | apps/api/didban/dimensions_service.py:208-250 | the nested loops build exactly that report |
| `Dimensions.AddShares` | apps/api/didban/dimensions_service.py:235-250 | the inner loop adds each share to its dimension's bucket, creating it when new |
| `Dimensions.PriceShares` | apps/api/didban/dimensions_service.py:126-160 | shares are priced exactly or refused at the first inexact one; at 100 percent their amounts are the line |
| `Dimensions.Attribution.constructor` | apps/api/didban/dimensions_service.py:87-92 | nothing is assigned yet and the numbering of every line starts at one |
| `Dimensions.Attribution.LatestAllocations` | apps/api/didban/dimensions_service.py:87-92 | the pass in version order keeps the last allocation of each line |
| `Dimensions.Attribution.AssignLine` | apps/api/didban/dimensions_service.py:103-193 | an allocation is appended with the next version exactly when version, dimensions, exactness, total and method allow it |

## Left out

* HTTP routes, authentication, membership, module switches, audit rows and messages; a guard
  enters as the boolean it decides.
* The provider call: an answer is an arbitrary outcome. Prompts, proposal schemas, response ids,
  usage counters, and waking a waiting job after a reconciliation are not part of this model.
* Money and USD as text: parsing and formatting (`usd`, `exact`, `canonical_money`, `amount`).
  Amounts are exact integers. The one textual rule kept is the six-decimal limit on a share.
* Automatic creation of a tariff in uncapped mode: the tariff in force is an input of a call. The
  gateway's configuration is fixed during a run, and a budget is identified by its month.
* Policies and caps that are stored as malformed text.
* Content checks of invoice evidence (draft state, lines, unit, party text, account roles): the
  journals that pass them are a set that may change. Digests stand for the ids they seal.
* References, histories and statuses that a view only displays.
* In forecasts: `_event`'s resolution of raw rows, evidence references, assumptions, question
  titles, and the cash path computed from the published events. `_capture` refuses a snapshot
  dated after today, so a receipt paid by the snapshot's date is paid by today.
* Profit metrics, comparisons, unknown-role reasons and evidence of the calculator, and the case
  of no bank rows at all, where every total is left blank.
* In closing and opening: role pins, period locks, and `validate_posting` beyond the search for an
  active journal (`ActivePosted`).
* `propose_groups`: candidates are given, with their own verdict on amounts.
* Single-row reconciliation decisions are inputs of a group decision. Their own writer is not part of
  this model, so nothing is claimed about a single-row decision made after a group was accepted.
* In consolidation: authorisation, how sources are read, metrics that are missing in one company.
* `future_obligations` and scenario arithmetic.
* Calendars and time zones.
