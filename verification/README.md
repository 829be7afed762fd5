# Procure-to-pay: a verified model

A Dafny model of the procurement back end: the procure-to-pay ledger, its money
artifacts, policy publication, and the two protocols that talk to the outside
world. Everything below is proved for all inputs, all histories and all
interleavings; `dafny verify dfyconfig.toml` checks the project.

## What is modelled

- **The ledger.** Six services share budgets, vendors, requisitions, quotes,
  orders, approvals, receipts, invoices, payment runs and payment lines. Each
  transaction is a function from one snapshot of the tables to the next
  (`LedgerSteps.dfy`) and a method of the class `Ledger` (`Ledger.dfy`), with
  the services' own loops, proved to compute that function. A snapshot is `Db`
  in `LedgerModel.dfy`; a row's identifier is its index. Row and advisory locks
  are what make one transaction one atomic step. `Ledger` carries the history
  of its transactions, and `Valid` says that its tables are the replay of that
  history, so every theorem about histories speaks about the class.
- **Matching.** `Matching.dfy` holds the gates of the three-way match with
  exact ratios, `MatchPasses.dfy` the re-match and the re-evaluation.
- **Theorems over histories.** `LedgerSafety.dfy` (one lemma per transaction),
  `LedgerTheorems.dfy`, `LimitTheorems.dfy`, `PaymentTheorems.dfy`,
  `MemoryTheorems.dfy`, `HistoryTheorems.dfy`, `SourcingTheorems.dfy` and
  `ApprovalTheorems.dfy`.
- **What each transaction does**, over the columns of the rows and without the
  step functions' own helpers: `RequisitionTheorems.dfy`, `OrderTheorems.dfy`,
  `ReceiptTheorems.dfy`, `InvoiceTheorems.dfy` and `RunTheorems.dfy`.
- **Witnesses.** `PurchaseScenario.dfy` builds one small history, on which
  `BudgetScenario.dfy`, `ReissueScenario.dfy` and `EmptyRunScenario.dfy` show
  what fails.
- **Money artifacts.** Tax (`Tax.dfy`), batch and snapshots (`Batch.dfy`),
  journal (`Journal.dfy`), CSV and its reader (`Csv.dfy`), the pain.001.001.08
  message and its reader (`Pain001.dfy`, `Pain001Document.dfy`,
  `PaymentMessage.dfy`). `RunArtifacts.dfy` ties them to reachable ledgers.
- **Policies.** Scopes (`PolicyScope.dfy`), the config schemas
  (`PolicyConfig.dfy`), publication and resolution against a publication log
  (`PolicyStore.dfy`, `PublicationTheorems.dfy`), the gates (`PolicyEngine.dfy`),
  what a publication makes the gate and the tax engine do (`PolicyInForce.dfy`),
  and quote ranking (`Ranking.dfy`).
- **External effects.** Message dispatch (`Messaging.dfy`,
  `MessagingRuns.dfy`, `DispatchTheorems.dfy`), the QuickBooks push
  (`JournalPush.dfy`, `PushTheorems.dfy`) and the HTTP attempt loop
  (`HttpAttempts.dfy`). Workers, operators and crashes interleave freely; sends
  and POSTs are counted. `MessageStore` and `ErpStore` carry the events so far,
  and `Valid` says that their rows are what those events made.

`Common.dfy`, `Text.dfy` and `Sorting.dfy` hold shared vocabulary.

## What turned out not to hold

- `committed + spent <= limit`, "paid on an order <= its total", and "an unpaid
  order can always be cancelled" are false (`TemptingStatementsFail`). The first
  holds exactly while every settlement fits the limit (`WithinLimitExactly`,
  `LimitsHoldExactly`), the second exactly while every payment fits the order
  (`PaidWithinTotalExactly`, `TotalsHoldExactly`), the third exactly while the
  budget holds the commitment (`CancellationNeedsCommitment`).
- A requisition sourced by quotes can never be ordered again once its order was
  cancelled: the unique award column refuses it (`SourcedRequisitionIsStuck`).
  An issue adds an order exactly when the other gates pass and no accepted quote
  was ordered before (`IssueAddsExactly`).
- A policy published for a cost center that contains a line terminator resolves
  but is then ignored by the gate, because the gate's pattern does not match
  across lines (`RuleOnTwoLinesIsIgnored`, exactly: `ResolvedPolicyApplies`).
- The scope schema allows 120 characters, but a bare cost center of more than
  109 is refused, because the canonical form is measured again
  (`LongBareScopeIsRefused`, exactly: `AcceptedScopes`).
- For messages of the automatic tier the approver may be an earlier resolver,
  and a rejected message may already have been sent (`AutoTierIsWeaker`). A
  rejected row is known to be unsent exactly when it carries no resolution
  (`RejectedUnsentExactly`).
- A truthful "not sent" can still end in two deliveries (`TruthIsNotEnough`).
  At most one delivery is certain exactly when it is given with nothing
  delivered and no worker still holding a claim (`DeliveredOnceExactly`).
- The export of a run whose invoices are all worth nothing is refused although
  its journal balances (`WorthlessRunIsNotExported`, exactly: `JournalOfRun`).

## Model

| member | source | states |
|---|---|---|
| `LedgerTheorems.BudgetBounds` | apps/api/src/purchase-order/purchase-order.service.ts:348-391 | Over every history: max(0, U - spent) <= committed <= U <= limit for U the total of the orders not cancelled, spent is exactly what was paid, and 20000*spent <= 21001*U <= 21001*limit |
| `LedgerTheorems.EveryHistoryIsSafe` | apps/api/src/invoice/invoice.service.ts:130-214 | Every database reachable by any sequence of the nineteen transactions, refused ones included, satisfies the whole ledger invariant |
| `LedgerTheorems.StepIsSafe` | apps/api/src/approval/approval.service.ts:373-383 | Each single transaction, from any consistent database, keeps every clause of the invariant |
| `LedgerTheorems.OrderBounds` | apps/api/src/invoice/invoice.service.ts:323-393 | Over every history and order: 20000*(matched and paid) <= 21001*received <= 21001*total, received quantities stay within ordered ones line by line, and quantity times price is the line total |
| `LedgerTheorems.NothingWithoutGoods` | apps/api/src/invoice/invoice.service.ts:401-427 | Over every history a matched or paid invoice has a live order with 0 < received <= total; a zero-total or cancelled order supports none |
| `LedgerTheorems.PaymentsByOrder` | apps/api/src/payment-run/payment-run.service.ts:468-491 | Payments of a budget summed by invoice equal payments summed by order |
| `LedgerTheorems.SpentWithinOpen` | apps/api/src/payment-run/payment-run.service.ts:480-491 | 20000*spent <= 21001*(total of the orders not cancelled), by summing the per-order bound |
| `LedgerTheorems.SettlementConserves` | apps/api/src/payment-run/payment-run.service.ts:482-488 | Settling adds the amount to spent; committed plus spent is conserved exactly when the amount fits the commitment, and otherwise grows by exactly the clamped difference |
| `LedgerTheorems.CancellationNeedsCommitment` | apps/api/src/approval/approval.service.ts:338-383 | An unpaid, unclaimed, unreceived order can be cancelled if and only if the budget still holds its full commitment; spending within the open total suffices |
| `LedgerTheorems.CancellationReleasesOnce` | apps/api/src/approval/approval.service.ts:155-237 | A cancelled order stays cancelled; the step that cancels it releases exactly its total, moves no other order, and leaves no matched or paid invoice on it |
| `LedgerTheorems.OnlyDecisionsCancel` | apps/api/src/approval/approval.service.ts:155-237 | No transaction but a decision cancels an order, and a cancelled row never changes again |
| `BudgetScenario.TemptingStatementsFail` | apps/api/src/payment-run/payment-run.service.ts:482-488 | A concrete reachable history in which committed plus spent exceeds the limit, payments on an order exceed its total, and an untouched order can no longer be cancelled |
| `LimitTheorems.OnlySettlingPays` | apps/api/src/payment-run/payment-run.service.ts:443-459 | No transaction but a paid reconciliation changes which invoices are paid |
| `LimitTheorems.PaidWithinTotalExactly` | apps/api/src/payment-run/payment-run.service.ts:443-459 | Per transaction and order: payments stay within the order total if and only if what was paid plus what the transaction pays on it does |
| `LimitTheorems.TotalsHoldExactly` | apps/api/src/payment-run/payment-run.service.ts:443-459 | Over every history no order was paid beyond its total if and only if every confirmed payment fitted when it was confirmed |
| `LimitTheorems.WithinLimitExactly` | apps/api/src/payment-run/payment-run.service.ts:480-491 | Per transaction: a budget within its limit stays within it if and only if the transaction is no settlement under it with committed + spent + max(0, amount - committed) > limit |
| `LimitTheorems.LimitsHoldExactly` | apps/api/src/payment-run/payment-run.service.ts:480-491 | Over every history every budget was within its limit at every moment if and only if every settlement fitted when it was made |
| `PaymentTheorems.PaidExactlyOnce` | apps/api/src/payment-run/payment-run.service.ts:407-434 | Over every history the money that left for an invoice is its net payable if it is paid and zero otherwise, and at most one live line claims it, only while it is matched |
| `PaymentTheorems.StepKeepsTerminal` | apps/api/src/payment-run/payment-run.service.ts:443-459 | No transaction changes a paid invoice or a payment line that was already decided |
| `PaymentTheorems.PaidForEver` | apps/api/src/invoice/invoice.service.ts:553-603 | `paid` and decided payment lines are absorbing over any continuation of any history |
| `PaymentTheorems.MatchedStaysPayable` | apps/api/src/payment-run/payment-eligibility.ts:10-38 | Over every history a matched invoice keeps a live order with a budget, so the eligibility check on matched invoices never refuses and settlement always finds its budget |
| `HistoryTheorems.EveryHistoryRemembers` | apps/api/src/invoice/invoice.service.ts:275-297 | Over every history each stored match result agrees with what re-deriving `allowPartial` from it would give |
| `HistoryTheorems.VerdictForEver` | apps/api/src/invoice/invoice.service.ts:518-529 | The amount verdict and the partial flag an invoice got against its order never change over any continuation |
| `HistoryTheorems.RecordedReceiptLeavesNoMatch` | apps/api/src/invoice/invoice.service.ts:477-544 | After a receipt is recorded no open invoice of the order is left that would match in the resulting state |
| `HistoryTheorems.CancelledReceiptIsSettled` | apps/api/src/invoice/invoice.service.ts:610-655 | After a receipt is cancelled a second re-evaluation changes no invoice status |
| `LedgerSafety.RecordReceiptSafe` | apps/api/src/receipt/receipt.service.ts:89-238 | Recording a receipt, with its re-match, keeps the invariant |
| `LedgerSafety.CancelReceiptSafe` | apps/api/src/receipt/receipt.service.ts:240-267 | Cancelling a receipt, with its re-evaluation, keeps the invariant for the smaller received value |
| `LedgerSafety.CancelOrderSafe` | apps/api/src/approval/approval.service.ts:170-237 | Cancelling an order, with demotion and budget release, keeps the invariant |
| `LedgerSafety.CommitOrderSafe` | apps/api/src/purchase-order/purchase-order.service.ts:348-391 | The budget commit and the new order keep the invariant, whether the lines come from the requisition or the award |
| `LedgerSafety.ReconcileSafe` | apps/api/src/payment-run/payment-run.service.ts:377-434 | Deciding a payment line, settling its invoice and closing the run keep the invariant |
| `LedgerSafety.CreateRunSafe` | apps/api/src/payment-run/payment-run.service.ts:61-228 | A planned run keeps the claim, total and snapshot clauses of the invariant |
| `LedgerSafety.RegisterSafe` | apps/api/src/invoice/invoice.service.ts:130-214 | Registering an invoice keeps the invariant, reserving value only when it matched |
| `LedgerSafety.ReceivedByOrderLine` | apps/api/src/invoice/invoice.service.ts:401-427 | Received value summed receipt line by receipt line equals price times received quantity summed order line by order line |
| `LedgerSafety.ReceivedWithinOrder` | apps/api/src/receipt/receipt.service.ts:141-186 | In every consistent database 0 <= received value <= order total |
| `LedgerSafety.AwardedLinesOk` | apps/api/src/purchase-order/purchase-order.service.ts:43-110 | Lines derived from an awarded quote have quantity times price equal to their total, and their totals add up to the quote total |
| `ReceiptTheorems.ReceiptIsBooked` | apps/api/src/receipt/receipt.service.ts:89-238 | Goods are booked exactly when the order is live, every line is acceptable and, line by line, everything recorded and asked stays within the ordered quantity; the lines are booked as given under one new receipt |
| `ReceiptTheorems.ReceiptIsTakenBack` | apps/api/src/receipt/receipt.service.ts:240-267 | A receipt is taken back exactly while it is recorded and no invoice of its order is paid or claimed; only its flag and the judgements of invoices change |
| `ReceiptTheorems.ReceiptCounts` | apps/api/src/receipt/receipt.service.ts:123-140 | A receipt adds exactly its own quantities to the lines of its order and nothing to any other |
| `ReceiptTheorems.TakenBackCounts` | apps/api/src/receipt/receipt.service.ts:240-267 | Taking it back takes exactly its own quantities away |
| `InvoiceTheorems.RegistrationAdds` | apps/api/src/invoice/invoice.service.ts:130-214 | A registration is refused exactly when an amount does not fit its column, adds nothing for a known number, and otherwise adds one invoice as submitted, taxed and judged by the first fault of its match |
| `InvoiceTheorems.EarlyInvoiceWaits` | apps/api/src/invoice/invoice.service.ts:430-439 | An invoice that fits its order but comes before the goods is received, not an exception, and the next receipt considers it |
| `InvoiceTheorems.StatusSaysWhy` | apps/api/src/invoice/invoice.service.ts:430-439 | Over every history an unpaid invoice is matched, waiting or an exception if and only if its last outcome was a match, missing goods, or another fault |
| `RunTheorems.RunNeedsPayable` | apps/api/src/payment-run/payment-run.service.ts:61-228 | A run is planned if and only if invoices are named and each is matched, in pesos, of a live order, vetted and complete in its bank account, and on no other run that is not voided, and what is due fits the column |
| `RunTheorems.RunIsPlanned` | apps/api/src/payment-run/payment-run.service.ts:159-228 | The run is a draft over the sum of its lines; each invoice named has exactly one line, over what is due and with the account frozen as it was |
| `RunTheorems.FirstUnreadyDecides` | apps/api/src/payment-run/payment-run.service.ts:142-157 | The first invoice whose account cannot be frozen decides the refusal: not found if its vendor is gone, otherwise a bad request |
| `RunTheorems.LineIsReconciled` | apps/api/src/payment-run/payment-run.service.ts:377-492 | An answer is taken exactly for a waiting line of an executed run, and written on it; only "paid" pays the invoice and moves its budget; the run closes exactly when no line waits |
| `Matching.ToleranceIsExact` | apps/api/src/invoice/invoice.service.ts:365-372 | The rounded tolerance test is one exact comparison: for capacity >= 1 it refuses exactly when 20000*total >= 21001*capacity |
| `Matching.ToleranceAntitone` | apps/api/src/invoice/invoice.service.ts:365-372 | What exceeds a capacity exceeds every smaller one |
| `Matching.FullMatchIsExact` | apps/api/src/invoice/invoice.service.ts:275-297 | The amount gate accepts exactly totals within 1001/20000 of the order total |
| `Matching.MatchedExactly` | apps/api/src/invoice/invoice.service.ts:252-358 | A match happens if and only if the order is live, vendor, currency and amount agree, something unreserved was received, and 20000*total < 21001*(received - reserved) |
| `Matching.OutcomeIsFirstFault` | apps/api/src/invoice/invoice.service.ts:252-358 | The outcome is the first fault in order: order, vendor, currency, amount, goods, capacity; a match exactly when there is none |
| `Matching.MatchKeepsBound` | apps/api/src/invoice/invoice.service.ts:323-358 | One more match keeps 20000*reserved <= 21001*received |
| `Matching.RefusalPersists` | apps/api/src/invoice/invoice.service.ts:323-358 | A refused bill stays refused when siblings reserve more, also when `allowPartial` is re-derived |
| `Matching.MatchPersists` | apps/api/src/invoice/invoice.service.ts:323-358 | A matching bill still matches when siblings reserve less, also when `allowPartial` is re-derived |
| `Matching.ReplayIsLossless` | apps/api/src/invoice/invoice.service.ts:275-297 | The stored partial flag does not depend on receipts or siblings and reproduces the amount verdict of the original request |
| `MatchPasses.RematchIsMaximal` | apps/api/src/invoice/invoice.service.ts:517-544 | Whatever a re-match leaves unmatched would not match in the final state either |
| `MatchPasses.RematchKeepsBound` | apps/api/src/invoice/invoice.service.ts:517-544 | A re-match only adds reservations and keeps the allocation bound |
| `MatchPasses.OpenIdsComplete` | apps/api/src/invoice/invoice.service.ts:484-510 | A re-match considers exactly the waiting and short invoices of the order, each once |
| `MatchPasses.OpenIdsOldestFirst` | apps/api/src/invoice/invoice.service.ts:484-510 | It considers them oldest receipt date first |
| `MatchPasses.ReevaluationRestoresBound` | apps/api/src/invoice/invoice.service.ts:610-655 | Judging each matched invoice against siblings not yet judged still ends within the bound for whatever received value is left |
| `MatchPasses.ReevaluationIsFixpoint` | apps/api/src/invoice/invoice.service.ts:622-655 | Every invoice the pass kept would be kept again in the final state |
| `MatchPasses.SecondPassDemotesNothing` | apps/api/src/invoice/invoice.service.ts:610-655 | A second pass, in any order, leaves every status as it is |
| `MemoryTheorems.StepRemembers` | apps/api/src/invoice/invoice.service.ts:518-529 | Every transaction keeps the stored results replayable and changes no amount verdict |
| `LedgerService.Ledger.Register` | apps/api/src/invoice/invoice.service.ts:130-214 | The new tables are exactly the step function of the old ones, with the same refusal, and the tables stay the replay of the recorded history |
| `LedgerService.Ledger.ReceivedValueForPo` | apps/api/src/invoice/invoice.service.ts:401-427 | The loop returns the value of the recorded receipts at order prices |
| `LedgerService.Ledger.RematchOpenForPo` | apps/api/src/invoice/invoice.service.ts:477-544 | The loop leaves the invoices of the re-match function; the summary counts final statuses and adds up to `considered` |
| `LedgerService.Ledger.ReevaluateMatchedForPo` | apps/api/src/invoice/invoice.service.ts:610-655 | The loop leaves the invoices of the re-evaluation function; kept plus demoted is `considered` |
| `LedgerService.Ledger.AssertPoCorrectionAllowed` | apps/api/src/invoice/invoice.service.ts:553-603 | True exactly when the order has neither a paid invoice nor a live or paid payment line |
| `LedgerService.Ledger.RunningByLine` | apps/api/src/receipt/receipt.service.ts:123-140 | The loop totals the recorded quantities of every order line |
| `LedgerService.Ledger.PrepareLines` | apps/api/src/receipt/receipt.service.ts:141-186 | The gate accepts exactly the requests whose lines all resolve and whose quantities, duplicates added up, fit the order line by line |
| `LedgerService.Ledger.RecordReceipt` | apps/api/src/receipt/receipt.service.ts:89-238 | New tables and refusal are those of the step function; a re-match summary is returned exactly when it was not refused, and its counts add up to `considered` |
| `LedgerService.Ledger.CancelReceipt` | apps/api/src/receipt/receipt.service.ts:240-267 | New tables and refusal are those of the step function; a blocked correction rolls the status back |
| `LedgerService.Ledger.CreateRequisition` | apps/api/src/requisition/requisition.service.ts:112-208 | New tables and refusal are those of the step function |
| `LedgerService.Ledger.SubmitRequisition` | apps/api/src/requisition/requisition.service.ts:271-418 | Status and gate row follow the threshold decision, as in the step function |
| `LedgerService.Ledger.RequestQuotes` | apps/api/src/sourcing/sourcing.service.ts:69-134 | The loop adds one quote row per vendor that has none yet |
| `LedgerService.Ledger.ReceiveQuote` | apps/api/src/sourcing/sourcing.service.ts:136-186 | New tables and refusal are those of the step function |
| `LedgerService.Ledger.AwardQuote` | apps/api/src/sourcing/sourcing.service.ts:304-407 | Received siblings are rejected and the winner accepted, as in the step function |
| `LedgerService.Ledger.IssuePo` | apps/api/src/purchase-order/purchase-order.service.ts:169-423 | New tables and refusal are those of the step function; a reused award ends in the unique violation. What the step does for each vendor status is `BlacklistedIsRefused`, `UnqualifiedIsAskedFor`, `DirectOrder` and `AwardedOrder` |
| `LedgerService.Ledger.ConfirmPo` | apps/api/src/purchase-order/purchase-order.service.ts:426-460 | New tables and refusal are those of the step function |
| `LedgerService.Ledger.RequestCancellation` | apps/api/src/purchase-order/purchase-order.service.ts:465-501 | At most one pending cancellation gate per order, as in the step function |
| `LedgerService.Ledger.Decide` | apps/api/src/approval/approval.service.ts:79-336 | New tables and refusal are those of the step function, through evidence, role on the route and maker check; a failed effect takes the decision back. What the step does is `SpendDecision`, `VendorDecision` and `CancellationGoesThrough` |
| `LedgerService.Ledger.FreezeBeneficiaries` | apps/api/src/payment-run/payment-run.service.ts:142-157 | Freezes row by row; the refusal is the one of the first row that cannot be frozen, and otherwise there is one snapshot per row |
| `LedgerService.Ledger.AssertLiveOrders` | apps/api/src/payment-run/payment-eligibility.ts:27-38 | True exactly when every invoice that names an order names a live one |
| `LedgerService.Ledger.CreateRun` | apps/api/src/payment-run/payment-run.service.ts:61-228 | Gates, freezing, total and lines row by row; new tables and refusal are those of the step function |
| `LedgerService.Ledger.ApproveRun` | apps/api/src/payment-run/payment-run.service.ts:234-264 | Only a draft moves, only by somebody other than its maker |
| `LedgerService.Ledger.ExecuteRun` | apps/api/src/payment-run/payment-run.service.ts:266-289 | Only an approved run moves |
| `LedgerService.Ledger.Reconcile` | apps/api/src/payment-run/payment-run.service.ts:377-441 | New tables and refusal are those of the step function |
| `LedgerService.Ledger.SettlePaidInvoice` | apps/api/src/payment-run/payment-run.service.ts:443-492 | A matched invoice becomes paid and its budget moves once; a paid one changes nothing |
| `LedgerService.Ledger.VoidRun` | apps/api/src/payment-run/payment-run.service.ts:494-525 | Only drafts and approved runs are voided, an approved one not by its maker |
| `SourcingTheorems.OneAwardOneOrder` | apps/api/src/sourcing/sourcing.service.ts:362-367 | Over every history a requisition has at most one accepted quote and at most one order that is not cancelled |
| `SourcingTheorems.OrdersMatchAwards` | apps/api/src/purchase-order/purchase-order.service.ts:218-253 | Over every history an order issued against a quote carries the requisition, vendor, currency and total of a quote that is still accepted |
| `SourcingTheorems.ReissueAddsNothing` | packages/db/prisma/schema.prisma:411-433 | Issuing a requisition whose award already has an order never adds one, whatever became of the first order |
| `SourcingTheorems.IssueAddsExactly` | apps/api/src/purchase-order/purchase-order.service.ts:169-423 | An issue adds an order if and only if the requisition is approved, funded and without a live order, the vendor is active, the award is this vendor's and valid, the lines and the budget fit, and no accepted quote of the requisition was ever ordered before |
| `ReissueScenario.SourcedRequisitionIsStuck` | packages/db/prisma/schema.prisma:411-433 | A concrete reachable history: the only order of a sourced requisition is cancelled, every other gate passes, and the issue ends in the unique violation |
| `SourcingTheorems.SourcedOrderedOnce` | apps/api/src/purchase-order/purchase-order.service.ts:202-229 | From then on, over any continuation, the number of orders of that requisition never changes |
| `SourcingTheorems.NobodyDecidesAlone` | apps/api/src/payment-run/payment-run.service.ts:234-264 | Over every history executed runs were approved by somebody other than their maker, approved runs voided by somebody else, and no human decided their own request |
| `SourcingTheorems.RequestsReachEveryVendor` | apps/api/src/sourcing/sourcing.service.ts:69-134 | Quotes are requested exactly for approved requisitions and known vendors; every vendor named has a row afterwards, only missing ones were added, and earlier rows stay |
| `SourcingTheorems.OfferIsRecorded` | apps/api/src/sourcing/sourcing.service.ts:136-186 | An offer is taken exactly for an open or received quote, a positive total and the quoted currency; what it leaves out stays |
| `SourcingTheorems.AwardDecides` | apps/api/src/sourcing/sourcing.service.ts:304-407 | An award goes through exactly for a received, priced, still valid offer in the requisition's currency with nothing accepted before; received siblings lose and no other quote moves |
| `OrderTheorems.BlacklistedIsRefused` | apps/api/src/policy/policy-engine.ts:135-143 | An issue to a blacklisted vendor is refused, as a conflict where everything else is in order, and changes nothing |
| `OrderTheorems.UnqualifiedIsAskedFor` | apps/api/src/purchase-order/purchase-order.service.ts:270-303 | For a prospective or watched vendor an issue goes through exactly when all else is in order; it adds no order and leaves one open gate for procurement, added only if there was none |
| `OrderTheorems.DirectOrder` | apps/api/src/purchase-order/purchase-order.service.ts:305-423 | To an active vendor and without quotes: an order comes if and only if the budget holds the total; it carries the lines of the requisition, its total is committed, and nothing else changes |
| `OrderTheorems.AwardedOrder` | apps/api/src/purchase-order/purchase-order.service.ts:43-110 | To an active vendor and with an award: an order comes if and only if the award is this vendor's, valid, in the right currency, adds up, was never ordered and fits the budget; it carries the offered lines and the quoted total |
| `OrderTheorems.OrderedAwardIsRefused` | packages/db/prisma/schema.prisma:411-433 | Where everything else is in order, an award that was ordered before is refused by the unique column |
| `OrderTheorems.NewOrderIsQualified` | apps/api/src/purchase-order/purchase-order.service.ts:169-423 | Whatever the transaction, an order that was added is for an approved requisition without a live order, from a vendor that is active |
| `OrderTheorems.CancellationGoesThrough` | apps/api/src/approval/approval.service.ts:155-237 | Approving a cancellation goes through if and only if the decision is allowed, no invoice of the order is paid or claimed, nothing was received, and the budget holds the commitment |
| `OrderTheorems.CancellationIsAskedFor` | apps/api/src/purchase-order/purchase-order.service.ts:465-501 | A cancellation can be asked exactly for a live order; one open gate for finance is left, added only if there was none |
| `OrderTheorems.NothingIsAskedTwice` | apps/api/src/purchase-order/purchase-order.service.ts:465-501 | Over every history no order has two open cancellations and no pair of requisition and vendor two open vendor gates |
| `RequisitionTheorems.RequisitionIsCreated` | apps/api/src/requisition/requisition.service.ts:112-208 | A requisition is created exactly when its lines fit the columns in one currency and its budget exists in it; it is a draft with every line priced |
| `RequisitionTheorems.SubmissionOpensGate` | apps/api/src/requisition/requisition.service.ts:271-418 | Exactly a draft with a fitting budget row is submitted; by amount, rule and remaining budget it becomes an exception, approved by the system, or submitted, with the one gate, kind and route that follow |
| `RequisitionTheorems.DecisionIsRecorded` | apps/api/src/approval/approval.service.ts:79-153 | A decision that goes through was allowed, is written on its gate alone, and names its taker |
| `RequisitionTheorems.SpendDecision` | apps/api/src/approval/approval.service.ts:254-320 | A decision on a spend gate goes through exactly when it is allowed; then the requisition is rejected if and only if a gate of it is, submitted if and only if none is rejected and one is open, approved otherwise; nothing else changes |
| `RequisitionTheorems.VendorDecision` | apps/api/src/approval/approval.service.ts:239-252 | A decision on a vendor gate makes the vendor active unless it rejects, and then leaves it; no requisition and no other vendor changes |
| `RequisitionTheorems.StatusIsTheDecision` | apps/api/src/approval/approval.service.ts:254-320 | Over every history a requisition is approved, rejected, open or a draft if and only if its one spend gate was approved or overridden, was rejected, is open or does not exist |
| `RequisitionTheorems.ApprovalNeedsItsGate` | apps/api/src/approval/approval.service.ts:254-320 | From every reachable state a submitted or blocked requisition becomes approved only by an allowed decision on its spend gate, with no gate of it open or rejected then; a rejected one never does |
| `ApprovalTheorems.GatesStayDecidable` | apps/api/src/approval/approval.service.ts:79-125 | Over every history a gate can be rejected if and only if it is open and the actor is a known user other than its maker with a role on its route or an administrator; only the gate of a blocked spend may have an empty route |
| `Ranking.ScoreInRange` | apps/api/src/sourcing/sourcing.service.ts:231-264 | Every best-value score lies in 0..100 |
| `Ranking.ScoreMonotone` | apps/api/src/sourcing/sourcing.service.ts:231-264 | An offer no dearer and no worse rated never scores lower |
| `Ranking.ScoreFormula` | apps/api/src/sourcing/sourcing.service.ts:231-264 | The score is the rounded weighted mean of how close the price is to the cheapest and of the rating clamped to 0..100, 50 where there is none |
| `Ranking.RankingIsOrdered` | apps/api/src/sourcing/sourcing.service.ts:222-261 | Under lowest cost quotes rank by price, unpriced ones last, under best value by score; ties by identifier |
| `Ranking.RecommendationHolds` | apps/api/src/sourcing/sourcing.service.ts:266-275 | The recommended quote has not lapsed, and none that has not lapsed scores higher or is cheaper; there is none exactly when all have |
| `Ranking.RecommendationIsBest` | apps/api/src/sourcing/sourcing.service.ts:266-275 | The ranking is a permutation of the quotes and the recommendation an unexpired one that ranks before every other unexpired one; there is none exactly when all expired |
| `Ranking.RecommendationMeaning` | apps/api/src/sourcing/sourcing.service.ts:266-275 | Under best value no unexpired quote scores higher than the recommended one, under lowest cost none is cheaper |
| `Ranking.ComparisonIsCanonical` | apps/api/src/sourcing/sourcing.service.ts:222-227 | Any permutation of the quotes gives the same ranking and recommendation |
| `PolicyInForce.AutoApprovalNeedsPublication` | apps/api/src/requisition/requisition.service.ts:301-333 | After any publications the gate passes a spend if and only if the last enabled rule for its cost center, else the last global one, covers amount and budget as it was published, and a rule of its own is not hidden by a line terminator |
| `PolicyInForce.RuleOnTwoLinesIsIgnored` | apps/api/src/policy/policy-engine.ts:48-53 | The witness: a rule published for a cost center on two lines is resolved, covers the amount, and the gate still asks for approval |
| `Tax.ComputeTax` | packages/tax/src/index.ts:70-105 | The loop returns gross, vatable base, VAT, withholding and net payable as sums over the lines. What each line contributes is `ComputationAddsUp` |
| `Tax.ComputationAddsUp` | packages/tax/src/index.ts:76-115 | Line by line: VAT on the positive amounts that are not exempt and on nothing else, withholding by class, and gross, base, VAT, withholding and net are their sums |
| `Tax.ExemptionDecides` | packages/tax/src/index.ts:80-83 | An invoice of exempt lines has no VAT and no vatable base; one without exempt or negative lines is vatable in full |
| `Tax.VatRoundingBound` | packages/tax/src/index.ts:57-90 | The vatable base is the sum of the positive amounts that are not exempt, and total VAT is within half a unit per such line of the exact rate on them |
| `Tax.EwtRoundingBound` | packages/tax/src/index.ts:57-90 | Per tax class, total withholding is within n/2 minor units of the exact rate |
| `Tax.ClassesSplitInvoice` | packages/tax/src/index.ts:70-105 | The classes partition gross and withholding of the invoice |
| `Tax.AmountsStayNonnegative` | packages/tax/src/index.ts:70-105 | With rates in 0..10000 and no negative line, VAT, withholding and net payable are not negative and withholding is at most gross |
| `Tax.NormalizedPolicyIsUsable` | packages/tax/src/index.ts:125-169 | Every normalised policy has rates in 0..10000 |
| `Tax.DefaultRates` | packages/tax/src/index.ts:107-117 | Without stored rates: 12% VAT and 1, 2, 5, 5, 0% withholding |
| `Tax.NormalizeRateKeeps` | packages/tax/src/index.ts:163-169 | A stored finite rate is used, rounded, exactly in [0, 10000.5); elsewhere the default stands; whole rates in range are kept |
| `PolicyInForce.PublishedRatesApply` | apps/api/src/policy/policy.service.ts:106-115 | After any publications the tax engine runs on the rates of the last enabled tax rule exactly as published, and on the defaults for those it leaves out |
| `Batch.ParsedBeneficiaryIsStable` | apps/api/src/payment-run/batch.ts:28-60 | Parsing a parsed beneficiary changes nothing |
| `Batch.FrozenIsUsable` | apps/api/src/payment-run/beneficiary-snapshot.ts:17-58 | A snapshot is frozen if and only if the vendor has a name and a complete, verified account without pending change; it holds the trimmed account and stays readable and usable |
| `Batch.BatchIsCanonical` | apps/api/src/payment-run/batch.ts:142-196 | Any permutation of the run lines gives the same batch or the same refusal |
| `Batch.BatchConserves` | apps/api/src/payment-run/batch.ts:165-192 | A batch is built if and only if every account is complete and the rows add up to the total; its credits pay exactly that total, one per row, each with the fields of its row |
| `Batch.CreditsAreListed` | apps/api/src/payment-run/batch.ts:159-163 | The credits are in the order of invoice number, then line identifier |
| `Batch.BatchToCsv` | apps/api/src/payment-run/batch.ts:107-140 | The loop renders the comment, header and credit rows; a reader of the file recovers every cell |
| `Sorting.SortIsCanonical` | apps/api/src/payment-run/batch.ts:159-163 | Sorting by an order that tells the rows apart does not depend on the order they came in |
| `Journal.BuildJournalManifest` | apps/api/src/erp/journal.ts:73-117 | The loop returns the postings of every invoice and the sum of the nets; on which accounts is `AccountsAreRight` |
| `Journal.AccountsAreRight` | apps/api/src/erp/journal.ts:82-117 | For every invoice list the debits on 2010 are gross plus VAT, the credits on 2020 the positive withholdings, the credits on 1010 the nets and the manifest total; nothing is posted elsewhere |
| `Journal.VerifyBalanced` | apps/api/src/erp/journal.ts:131-149 | The loop returns both side totals and accepts exactly equal positive ones |
| `Journal.JournalBalances` | apps/api/src/erp/journal.ts:73-149 | For any invoice list debits are gross plus VAT, equal the credits exactly when no withholding is negative, and the check passes exactly when there is also something to post |
| `Journal.PostingsNonnegative` | apps/api/src/erp/journal.ts:73-117 | No entry is negative exactly when no invoice has a negative payable or net |
| `Journal.ManifestToCsv` | apps/api/src/erp/journal.ts:166-189 | The loop renders the file; reading it back recovers every entry for arbitrary strings, a missing tax id as empty |
| `Csv.CellRoundTrip` | apps/api/src/erp/journal.ts:161-164 | A cell of arbitrary text in front of a delimiter reads back (rules 5 to 7 of section 2 of RFC 4180) |
| `Csv.FileRoundTrip` | apps/api/src/erp/journal.ts:161-189 | A table of arbitrary cells reads back from its rendering |
| `RunArtifacts.RowsAddUp` | apps/api/src/payment-run/payment-run.service.ts:142-211 | Whatever order the query uses, the lines of a run add up to its frozen total |
| `RunArtifacts.BatchIsNeverRefused` | apps/api/src/payment-run/payment-run.service.ts:299-355 | For every approved or executed run of every history the batch is built, pays exactly the run total and has one credit per line |
| `RunArtifacts.EveryRowIsPaid` | apps/api/src/payment-run/payment-run.service.ts:299-355 | In that batch every credit pays one line of the run what is due to the account frozen on it, and every line is paid by a credit |
| `RunArtifacts.ArtifactsNeedTheirStatus` | apps/api/src/payment-run/payment-run.service.ts:299-318 | A run in any other status has no batch, and no journal unless it is executed or reconciled |
| `RunArtifacts.RegenerationIsIdentical` | apps/api/src/payment-run/payment-run.service.ts:319-337 | Two generations of the same run are identical whatever order the rows were read in |
| `RunArtifacts.MessageOfRun` | apps/api/src/payment-run/payment-run.service.ts:347-350 | For every such run the credit-transfer message comes if and only if both debtor settings hold text, and then has one amount per line and both control sums parsing to the run total |
| `RunArtifacts.JournalOfRun` | apps/api/src/erp/erp.service.ts:39-123 | For every executed or reconciled run of every history the credits on the cash account and the journal total are the run total, debits equal credits, no entry is negative, and the export is refused exactly when the payables sum to zero |
| `RunArtifacts.JournalIsAboutTheRun` | apps/api/src/erp/erp.service.ts:39-123 | Every entry of an exported journal is about an invoice on a line of the run, under its number and its vendor's name and tax number |
| `EmptyRunScenario.WorthlessRunIsNotExported` | apps/api/src/erp/erp.service.ts:39-123 | The witness: a reachable executed run of one zero invoice whose export is refused |
| `Pain001.EscapeIsPerCharacter` | apps/api/src/payment-run/pain001.ts:34-41 | The five replacement passes are one map over the characters |
| `Pain001.EscapeRoundTrip` | apps/api/src/payment-run/pain001.ts:34-41 | Unescaping inverts escaping (section 4.6 of XML 1.0) and escaped text carries no angle bracket |
| `Pain001.AmountRoundTrip` | apps/api/src/payment-run/pain001.ts:44-51 | An amount is rendered exactly for safe integers and parses back, for either sign |
| `Pain001Document.ReadsLeaves` | apps/api/src/payment-run/pain001.ts:53-138 | Reading any rendered document of this layout gives exactly its leaf elements in order |
| `PaymentMessage.MessageReadsBack` | apps/api/src/payment-run/pain001.ts:63-138 | The message exists exactly when all amounts are safe integers, and reading it recovers every value of the batch and the debtor in order |
| `PaymentMessage.ControlSumsAgree` | apps/api/src/payment-run/pain001.ts:98-118 | In the message of a conserved batch both NbOfTxs count the InstdAmt elements, every InstdAmt parses, and both CtrlSum parse to their sum |
| `PaymentMessage.BuiltMessageAgrees` | apps/api/src/payment-run/pain001.ts:25-138 | Whatever rows a batch is built from, the message that comes with it agrees with itself; none comes exactly when a debtor setting is blank, and it throws exactly when an amount is no safe integer |
| `PolicyScope.AcceptedScopes` | apps/api/src/policy/policy-config.ts:58-89 | Exactly which scopes a publication accepts: bare cost centers up to 109 characters, prefixed ones up to 120 |
| `PolicyScope.LongBareScopeIsRefused` | apps/api/src/policy/policy-config.ts:75-89 | The witness: 109 letters are accepted, 110 are refused although the schema allows 120 |
| `PolicyScope.StoredScopeIsStable` | apps/api/src/policy/policy-config.ts:69-88 | What an accepted publication stores has the published scope and validates to itself |
| `PolicyScope.AliasesAgree` | apps/api/src/policy/policy-config.ts:82-88 | A bare cost center and its prefixed spelling are one scope |
| `PolicyScope.ScopedPolicyApplies` | apps/api/src/policy/policy-engine.ts:48-53 | A policy for exactly this cost center is applied by the gate if and only if the cost center holds no line terminator |
| `PolicyScope.ScopeIsForOneCostCenter` | apps/api/src/policy/policy-engine.ts:48-53 | A cost-center scope applies to that cost center alone, with the exact exception of names over several lines |
| `PolicyConfig.AcceptedConfigs` | apps/api/src/policy/policy-config.ts:5-72 | A publication is accepted if and only if its scope is and every other member is one the kind knows, of the type and within the bounds it demands |
| `PolicyConfig.AcceptedMembers` | apps/api/src/policy/policy-config.ts:5-56 | For each kind: exactly which members with which values are accepted |
| `PolicyConfig.StoredTextIsTrimmed` | apps/api/src/policy/policy-config.ts:5-56 | What is stored of a member is the member, with its texts trimmed |
| `PolicyConfig.StoredConfigIsStable` | apps/api/src/policy/policy-config.ts:58-72 | What is stored of an accepted config has the published scope and validates to itself, member by member |
| `PolicyStore.Store.Create` | apps/api/src/policy/policy.service.ts:117-180 | New rows and refusal are those of the publication function, and the rows stay what the history of attempts makes of an empty store |
| `PolicyStore.Store.ResolveEffectivePolicy` | apps/api/src/policy/policy-resolver.ts:18-52 | The grouping loop returns what the resolution function returns |
| `PolicyStore.GroupAndPick` | apps/api/src/policy/policy-resolver.ts:28-48 | The loop fills one group per scope in revision order and picks the head of the exact or the global one |
| `PolicyStore.HistoryIsSound` | apps/api/src/policy/policy.service.ts:117-180 | After any publication attempts versions strictly increase per kind and a row is enabled exactly while no later enabled publication of its kind and scope retired it |
| `PolicyStore.OneEnabledPerScope` | apps/api/src/policy/policy.service.ts:156-164 | At most one enabled revision per kind and scope |
| `PolicyStore.ResolutionFollowsLog` | apps/api/src/policy/policy-resolver.ts:18-52 | Resolution returns the last enabled publication of the exact scope, else the last enabled global one, with the config it was accepted with; it never meets the ambiguous branch, and validating the head again neither refuses nor changes it |
| `PolicyStore.ResolvedPolicyApplies` | apps/api/src/policy/policy-resolver.ts:27-35 | A resolved policy is applied by the gate except when it was published for this cost center and the cost center holds a line terminator |
| `PolicyStore.SupersedesLatest` | apps/api/src/policy/policy.service.ts:139-155 | A supersession is accepted exactly while its target is the latest revision of its kind and scope, enabled or not |
| `PublicationTheorems.PublicationIsAccepted` | apps/api/src/policy/policy.service.ts:117-180 | In every reachable store a publication is accepted if and only if its config is, the next number fits the column, and it replaces nothing but the latest revision of its kind and scope; and which of these refuses it how |
| `PublicationTheorems.PublicationWrites` | apps/api/src/policy/policy.service.ts:117-180 | It adds one revision under the next number and, if enabled, switches off exactly the enabled ones of its kind and scope |
| `PublicationTheorems.RevisionsAreNumbered` | apps/api/src/policy/policy.service.ts:117-180 | Over every history the revisions of a kind are numbered 1, 2, 3, ... without a gap |
| `Messaging.CallerProseNeedsApproval` | apps/api/src/messaging/messaging.service.ts:212-318 | Over every run of every message that was created from a caller subject or body, a send needs a recorded approver, who never resolves its delivery |
| `Messaging.SendsAtMost` | apps/api/src/messaging/messaging.service.ts:533-644 | Over all interleavings and crashes transport sends <= 1 + number of `confirmed_not_sent` resolutions |
| `Messaging.GatedNeedsApprover` | apps/api/src/messaging/message-dispatch-policy.ts:8-37 | A gated message is sent only with a recorded approver, who never resolves its delivery; a rejected one was never sent |
| `DispatchTheorems.WorkerAddedExactly` | apps/api/src/messaging/messaging.service.ts:538-600 | A worker is added if and only if the row is staged in the expected status, released by its tier or a human, and hash, vendor, blacklist, recipient and, for the automatic tier, template all hold |
| `DispatchTheorems.EveryWorkerWasCleared` | apps/api/src/messaging/messaging.service.ts:538-600 | Over all runs every worker goes back to a claim of its own with all of that in order |
| `DispatchTheorems.SendNeedsClearance` | apps/api/src/messaging/messaging.service.ts:538-600 | Over all runs nothing is sent without such a claim |
| `DispatchTheorems.FailedCheckIsRecorded` | apps/api/src/messaging/messaging.service.ts:564-589 | The first check that fails is the reason stored on the failed row |
| `DispatchTheorems.AnswerDecides` | apps/api/src/messaging/messaging.service.ts:533-644 | An undisturbed dispatch ends sent or failed as the transport answered, and a row that cannot be claimed stays as it is |
| `DispatchTheorems.ResolutionMoves` | apps/api/src/messaging/messaging.service.ts:427-503 | A resolution is accepted exactly for a failed or long silent delivery by somebody other than the approver, and what it writes by outcome and tier |
| `Messaging.FinalForEver` | apps/api/src/messaging/messaging.service.ts:427-503 | `sent` and `rejected` rows never change again |
| `Messaging.SeparationExactly` | apps/api/src/messaging/messaging.service.ts:337-400 | Approver and resolver coincide through exactly one step: an earlier resolver deciding the requeued message |
| `MessagingRuns.AutoTierIsWeaker` | apps/api/src/messaging/messaging.service.ts:457-473 | Runs of the automatic tier in which the resolver approves, and in which a message already handed to the transport is rejected |
| `MessagingRuns.RejectedUnsentExactly` | apps/api/src/messaging/messaging.service.ts:382-419 | For both tiers and all runs a rejected row without a resolution was never sent; and for every row that is rejected after a resolution some run with that very row had sent it |
| `MessagingRuns.CarefulRunsDeliverOnce` | apps/api/src/messaging/messaging.service.ts:427-503 | If every `confirmed_not_sent` is given with nothing delivered and no worker holding a claim, there is at most one delivery |
| `MessagingRuns.CarelessCanDeliverTwice` | apps/api/src/messaging/messaging.service.ts:427-503 | Every accepted `confirmed_not_sent` given otherwise has a continuation that delivers twice |
| `MessagingRuns.DeliveredOnceExactly` | apps/api/src/messaging/messaging.service.ts:427-503 | Per accepted `confirmed_not_sent`, after a careful run: every continuation without a further one delivers at most once if and only if nothing was delivered and no worker held a claim |
| `MessagingRuns.TruthIsNotEnough` | apps/api/src/messaging/message-dispatch-policy.ts:40-47 | A run with a truthful `confirmed_not_sent` about a stale claim that still delivers twice |
| `Messaging.MessageStore.Approve` | apps/api/src/messaging/messaging.service.ts:337-374 | Only a queued row becomes approved; otherwise conflict; the row stays what the recorded events made of a fresh one |
| `Messaging.MessageStore.Reject` | apps/api/src/messaging/messaging.service.ts:382-419 | Only a queued row becomes rejected, with the given reason; otherwise conflict; the row stays the run of its events |
| `Messaging.MessageStore.ResolveFailedDelivery` | apps/api/src/messaging/messaging.service.ts:427-503 | Refusals in order, the next status by tier and outcome, and which time stamp is cleared or set; the row stays the run of its events |
| `Messaging.MessageStore.Claim` | apps/api/src/messaging/messaging.service.ts:538-600 | Claims exactly staged rows in the expected status; the first failing check, by tier, fails the row with its reason on the spot; the row stays the run of its events. What the checks demand is `WorkerAddedExactly`, and the reasons are `FailedCheckIsRecorded` |
| `Messaging.MessageStore.ClaimAndDispatch` | apps/api/src/messaging/messaging.service.ts:533-644 | The undisturbed dispatch: transport contacted exactly when claimed and every check passed, one send counted then, and the answer or failure reason recorded on the row |
| `Messaging.MessageStore.ReleaseRecovered` | apps/api/src/messaging/messaging.service.ts:509-519 | Redispatches only after a `confirmed_not_sent` resolution, from the status of its tier |
| `JournalPush.OnePostPerRun` | apps/api/src/erp/erp.router.ts:251-324 | Over all callers, crashes and acknowledgements no two journal POSTs are for the same export or the same payment run |
| `JournalPush.UnclaimedStaysUnposted` | apps/api/src/erp/erp.service.ts:270-312 | An export acknowledged without a claim is never posted, now or later |
| `JournalPush.SettledForEver` | apps/api/src/erp/erp.service.ts:316-371 | An export leaves `exported` once and for all, and a claim is never cleared or handed over |
| `JournalPush.SettlementIsHonest` | apps/api/src/erp/erp.service.ts:407-432 | Who resolves a claimed dispatch is never who claimed it, and an export its own push settled carries the entry that push returned |
| `PushTheorems.WorkerAddedExactly` | apps/api/src/erp/erp.service.ts:270-312 | A push starts if and only if the export waits, is claimed by nobody and is intact |
| `PushTheorems.EveryPostWasClaimed` | apps/api/src/erp/erp.router.ts:251-324 | Over all runs every POST is for an export claimed in that state |
| `PushTheorems.AcknowledgementSettles` | apps/api/src/erp/erp.service.ts:373-474 | Exactly which acknowledgements are accepted, and what they write |
| `JournalPush.ErpStore.PrepareQboPush` | apps/api/src/erp/erp.service.ts:270-312 | Claims exactly unsettled, unclaimed exports with an intact artifact, under a fresh identifier; the rows stay the run of the recorded events |
| `JournalPush.ErpStore.MarkQboPushFailed` | apps/api/src/erp/erp.service.ts:316-330 | Only the current claim is marked, and it is kept |
| `JournalPush.ErpStore.CompleteQboPush` | apps/api/src/erp/erp.service.ts:333-366 | Only the current claim settles the export as posted |
| `JournalPush.ErpStore.Acknowledge` | apps/api/src/erp/erp.service.ts:373-474 | Refusals in order and the whole new row |
| `JournalPush.ErpStore.QboPushExport` | apps/api/src/erp/erp.router.ts:251-324 | The undisturbed push: one POST exactly when claimed, then settled or left for review |
| `HttpAttempts.FetchWithDeadline` | apps/api/src/erp/fetch-with-deadline.ts:141-199 | One attempt for anything but GET and HEAD (section 9.2.2 of RFC 9110); otherwise at most 1 + retries, every earlier outcome retryable, and the result that of the last attempt |

## Left out

- JavaScript floating point: ratios are exact integers or reals, so a rounding
  boundary that a double would miss is decided exactly.
- Dafny characters are Unicode scalar values; string lengths in UTF-16 units
  differ for characters outside the basic plane.
- Refusals keep the class of the exception, not its message.
- Events, audit entries, idempotency keys, outbox rows and relays.
- Document numbers and their retry loop; identifiers are row indices.
- Lock order and deadlock: transactions are atomic steps. Invoices with equal
  receipt dates are taken in identifier order, where the query leaves the order
  open.
- Currency code normalisation: currencies are compared as given.
- The vendor services: `PutVendor` may rewrite any vendor at any time.
- Budget services: only creation with a limit; no service changes a limit later.
- Escalation marks on overdue approvals: they do not touch an approval's status.
- `localeCompare`: any comparison whose sign is a total preorder.
- Canonical JSON, sha256 and the frozen artifact: what a re-export returns for
  an existing export beyond "the same row" is not modelled.
- The catalogue of active policies and the historical policy lookup.
- Optional descriptive fields of quotes and lines.
- Templates of automatic messages: whether one resolves is an input.
- The QuickBooks client: what a POST returns is an input of the step.
- Back-off delays and abort signals in the attempt loop.
- A UTF-8 declaration, attribute normalisation and white-space handling of a
  full XML processor; the reader recovers names and text of leaf elements.
- The web application, agent tools, mail intake, SSO, encryption, analytics and
  tax filings: no state that these properties need.
- LedgerService.Ledger.RematchOpenForPo: the summary is proved, the events the
  service emits per invoice are not modelled.
- LedgerService.Ledger.Register: the effective tax policy is a parameter, so it
  holds for any policy; which one is in force is `PublishedRatesApply`.
- LedgerService.Ledger.SubmitRequisition: the threshold policy is a parameter, so
  it holds for any policy; which one is in force, and what it makes the gate do,
  is `AutoApprovalNeedsPublication`.
- LedgerService.Ledger.Decide: the role found for the actor is an input; the user
  table is not modelled.
- Messaging.MessageStore.Claim: what the checks find (body hash, vendor, contact,
  template) is an input; their order, their tier and their effect are modelled.
- Messaging.MessageStore.ClaimAndDispatch: the answer of the transport is an input.
- JournalPush.ErpStore.PrepareQboPush: whether the frozen artifact still has its
  recorded hash is an input.
- PolicyInForce.AutoApprovalNeedsPublication: citations and reasons are not
  modelled.
- PolicyConfig.AcceptedConfigs: numbers are reals, and a config has no members
  with an undefined value.
