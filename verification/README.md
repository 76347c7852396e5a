# A verified model of the stock, money and document core

The repository is an inventory system: sales, purchases, outflows, discharges,
transfers, manual transactions and stock takes move one mutable `quantity` per
inventory row, and nothing stores a journal of those moves. This project
models that core in Dafny and proves what holds of it over every run.

The model has two levels.

* **Service level.** Each service call is one step that either applies
  completely or leaves the tables as they were. The tables are a value
  (`Tables.Db`: rows are positions of sequences); every operation has a
  specification function on it and a class method, in the source's own
  statement order, that works inside a transaction object and is proved to
  settle exactly as specified (`Stock.Settles`: an error leaves the committed
  tables alone). `System` puts thirty kinds of call together; runs are
  arbitrary sequences of them.
  `Stock`, `Payments`, `Sales`, `Documents`, `Transfers`, `StockTakes` are the
  operations; `Ledger`, `Runs`, `Report`, `Reconciliation`, `Accounts`,
  `Balances`, `Quotations`, `RoundTrips`, `Counting`, `Lifecycles`, `Rows`,
  `TransferFacts` prove what they keep, and `Witnesses` runs the exceptions.
  `TradeAnswers`, `MoneyAnswers`, `TransferAnswers`, `StockTakeAnswers`,
  `ReportAnswers` and `Amounts` say when each call goes through and what it
  leaves, in the columns of the tables and so apart from the functions that
  compute it, and `Refusals` says which error it gets otherwise.
* **Statement level.** `Jobs` and `Interleaving` run any number of
  transactions one SQL statement at a time: row locks held until the
  transaction ends, READ COMMITTED reads, an unlocked look at the stock before
  guarded updates, aborts anywhere. Every interleaving is proved equal to a
  serial run of the jobs that committed, in commit order. `MoneyRaces` does the
  same for payments, cancellations and the credit check, `CountRaces` for the
  lock that keeps two stock takes of one warehouse apart, and `Races` shows
  what the two unlocked status checks can break. `JobAnswers` ties these
  transactions to the service calls; `MoneyAlone` says what those of
  `MoneyRaces` answer undisturbed, and `MoneyJobs` that the service calls
  answer and write the same.

Beside them stand `Money` (integer cents, exact rationals, rounding half up),
`Loans` with `LoanOverlaps` (the checks of a creation apart from its insert),
`Numbering` with `Correlatives` (the printed form), `Refresh` (the debounced
scheduler) and `Alerts`. `LoanAnswers`, `NumberingAnswers` and `AlertAnswers`
are to them what the others are to the service level.

Amounts are whole cents, percentages hundredths of a per cent, dates integers.
Fields marked as bookkeeping in the comments (`Item.entered`,
`Transfer.landed`, `Jobs.Doc.applied` and `undone`, `Numbers.log`,
`State.committed`, the counters of `Refresh.Sched`) exist only to state
properties; no operation of the source depends on them.

## What turned out not to hold

Each comes with its exact condition and a run or input in which it happens.

* A manual IN transaction may name a soft-deleted item; it can then not be
  deleted (`RoundTrips.TransactionRoundTripIff`,
  `Witnesses.EntryOnDeletedRowStays`).
* A purchase of serialized units cannot be cancelled once saved, by design
  (`RoundTrips.PurchaseRoundTripIff`, `Witnesses.SerializedPurchaseStays`).
* Confirming a quotation recomputes its tax from the stored percentage, so a
  third decimal changes it (`Money.TaxSurvivesStorageIff`,
  `Witnesses.ConfirmingChangesTax`).
* A transfer makes up a SKU for each item with a SKU that the destination has
  no row for, and aborts if that SKU is in use. So such an item reaches a
  destination only once, and a request that names it twice, accepted, approved
  and sent like any other, can never be executed (`TransferFacts.TransferIff`,
  `TransferFacts.SecondTransferIsRefused`, `Witnesses.SecondTransferStuck`,
  `TransferFacts.RepeatedItemIsRefused`, `Witnesses.RepeatedItemStuck`).
* Rejecting a discharge and sending a transfer check the status without a
  lock. A discharge can end REJECTED with its stock gone, and a transfer can be
  executed twice (`Races.RejectedWithStockGone`, `Races.TransferExecutedTwice`);
  `Races.TellsTruthIff` says exactly when, over any interleaving.
* Creating a loan looks for other loans of its items before its transaction
  and without a lock, so two creations at once can lend one item twice
  (`LoanOverlaps.CreationKeepsApartIff`, `LoanOverlaps.OneItemTwoLoans`).
* An OVERDUE loan that never arrived can be returned, except by manual
  confirmation (`LoanLifecycle.ReceivedFirstIff`,
  `LoanLifecycle.ReturnedNeverReceived`).
* An expiring-soon alert of an item in stock is resolved by the very check that
  raises it, and raised again by the next; and since the query for existing
  alerts asks for no order, an item that ran out can have its expiry alert
  rewritten and raised again (`AlertRepeats.CheckRepeatsIff`,
  `AlertWitnesses.RaisedByEveryCheck`, `AlertWitnesses.RaisedByAnotherOrder`).
* An unresolved alert of another kind keeps a low item from being reported as
  low (`AlertFacts.LowIsReportedIff`, `AlertWitnesses.OutHidesLow`,
  `AlertWitnesses.ExpiryHidesLow`).
* A CAI range nothing was issued from cannot be moved in one edit to numbers
  that end below its old start less one, although two edits always can: the
  check against the last number issued is made even when there is none
  (`NumberingFacts.OneEditReachesIff`, `NumberingFacts.TwoEditsReach`,
  `NumberingFacts.LowerRangeTakesTwoEdits`).

## Model

| member | source | states |
|---|---|---|
| Stock.TakeStock | src/inventory/stock.util.ts:22-58 | takes the units only from a live row holding at least that many, and otherwise changes nothing and tells apart a row that is gone and one that is short |
| Stock.TakeAllIff | src/inventory/stock.util.ts:22-58 | a list of decrements goes through exactly when every item is live and holds the sum of its lines, and leaves each item short of exactly that sum |
| Stock.GiveAllIff | src/outflows/outflows.service.ts:344-352 | a list of increments fails only on a row that does not exist, and adds to each item exactly the sum of its lines |
| Stock.TakeGiveInverse | src/sales/sales.service.ts:916-925 | restoring what was taken, or taking what was restored, gives back every row |
| Stock.TakeLines | src/outflows/outflows.service.ts:221-225 | the loop of guarded decrements takes all lines or reports the first one short |
| Stock.GiveLines | src/sales/sales.service.ts:916-925 | the increments give back all lines, whatever order they finish in |
| Stock.CheckLines | src/outflows/outflows.service.ts:188-216 | the unlocked look compares each line on its own with the quantity read |
| Stock.CheckDecidesWhenDistinct | src/outflows/outflows.service.ts:188-216 | without repeated items that look alone already decides whether the lines can be taken |
| Sales.SalesService.CheckCredit | src/sales/sales.service.ts:114-195 | refuses exactly when the other open credit sales plus this amount exceed the limit, or the currency is not the limit's; no client, cash or no limit never refuses |
| Sales.SalesService.Create | src/sales/sales.service.ts:232-333 | validates the lines, computes the totals and saves the sale; all or nothing |
| Sales.SalesService.CreateInternal | src/sales/sales.service.ts:340-475 | an ACTIVE sale passes the credit check and takes its stock with its row, or leaves nothing; a quotation takes none |
| Sales.SalesService.Update | src/sales/sales.service.ts:550-730 | edits quotations only, revalidating the lines or the stocking warehouse and recomputing the amounts where lines or tax change |
| Sales.SalesService.Confirm | src/sales/sales.service.ts:738-854 | turns a quotation into a sale once: credit check, stock taken, amounts recomputed |
| Sales.SalesService.Cancel | src/sales/sales.service.ts:856-953 | cancels a quotation freely; an ACTIVE sale only with permission and without active payments, restoring its stock |
| Amounts.SaleComes | src/sales/sales.service.ts:297-316 | each line of a saved sale is within half a cent of price times quantity, its tax within half a cent of that total at its own percentage or else the document's, the document the sum of its lines and so within n half-cents of the exact sum; every other column is the one requested |
| Amounts.EditComes | src/sales/sales.service.ts:550-730 | so are the lines of an edited quotation where lines are given; otherwise the old lines are taxed anew, at their stored percentages; fields not given stay |
| Amounts.ConfirmationComes | src/sales/sales.service.ts:766-838 | a confirmed sale is the quotation made ACTIVE, its lines taxed anew at their stored percentages |
| TradeAnswers.SaleIff | src/sales/sales.service.ts:232-333 | a sale is saved exactly when it has lines, its items are live, in the warehouse and named once, its client exists and, unless a quotation, the credit check passes and the rows hold all units named; a quotation moves no stock |
| TradeAnswers.EditIff | src/sales/sales.service.ts:550-730 | exactly quotations are edited, and new lines must be orderable where the sale then is, or the old ones be stocked there |
| TradeAnswers.ConfirmIff | src/sales/sales.service.ts:738-854 | exactly a quotation whose stock is there and whose recomputed amounts pass the credit check becomes a sale, taking that stock |
| TradeAnswers.CancelSaleIff | src/sales/sales.service.ts:856-953 | what cancelling answers in each status, and all it writes |
| MoneyAnswers.CreditIff | src/sales/sales.service.ts:114-195 | the credit check refuses exactly a credit sale of a client with a limit that is in another currency than the limit, or that takes what the client owes on its other ACTIVE credit sales above it; cash, no client or no limit never |
| Refusals.TakingRefuses | src/inventory/stock.util.ts:22-58 | decrements fail on the first line that cannot be taken: with the row gone, or short of what the lines up to it name |
| Refusals.SaleRefused | src/sales/sales.service.ts:232-470 | which refusal a sale or quotation gets, from the first check that fails |
| Refusals.EditRefused | src/sales/sales.service.ts:550-730 | which refusal an edit gets |
| Refusals.ConfirmRefused | src/sales/sales.service.ts:738-838 | which refusal a confirmation gets, an item gone told apart from one that is short |
| Payments.PaymentsService.LockAndComputeBalance | src/payments/payments.service.ts:141-179 | the balance of an ACTIVE document: total and tax less its active payments |
| Payments.PaymentsService.AggregatePaid | src/payments/payments.service.ts:170-178 | the loop adds up exactly the active payments of one document |
| Payments.PaymentsService.Create | src/payments/payments.service.ts:49-132 | records a payment only on an ACTIVE document and only up to its balance |
| Payments.PaymentsService.Cancel | src/payments/payments.service.ts:257-306 | voids an active payment once, touching nothing else |
| MoneyAnswers.PayIff | src/payments/payments.service.ts:77-114 | a payment goes through exactly when the document exists, is ACTIVE and the amount is at most its total plus tax less its active payments; it is then the one payment more, to the nearest cent |
| MoneyAnswers.CanBePaidOff | src/payments/payments.service.ts:77-114 | whatever is left of a sale or a purchase can be paid in one exact payment, which leaves nothing owed |
| MoneyAnswers.VoidIff | src/payments/payments.service.ts:257-306 | exactly an active payment is voided, and only its state changes |
| Purchases.PurchaseInvoicesService.Create | src/purchase-invoices/purchase-invoices.service.ts:125-392 | adds bulk lines to their rows, creates one row per serialized unit and saves the invoice with computed amounts; all or nothing |
| Purchases.PurchaseInvoicesService.Cancel | src/purchase-invoices/purchase-invoices.service.ts:481-586 | takes the stock back, unless there are serialized units, active payments or too little left |
| Amounts.PurchaseComes | src/purchase-invoices/purchase-invoices.service.ts:226-372 | the lines of a saved purchase, units among them, come to price times quantity and are taxed like a sale's |
| Amounts.UnitsCome | src/purchase-invoices/purchase-invoices.service.ts:263-330 | each serialized unit bought has a row of its own, in its name and category |
| TradeAnswers.PurchaseIff | src/purchase-invoices/purchase-invoices.service.ts:125-392 | a purchase is saved exactly when it buys something and its bulk lines name live bulk items of the warehouse, each once |
| TradeAnswers.CancelPurchaseIff | src/purchase-invoices/purchase-invoices.service.ts:481-586 | exactly an ACTIVE purchase without serialized units or active payments, whose stock is still there, is cancelled |
| Refusals.PurchaseRefused | src/purchase-invoices/purchase-invoices.service.ts:125-232 | which refusal a purchase gets, line by line for the warehouse and the kind of item |
| Refusals.CancelPurchaseRefused | src/purchase-invoices/purchase-invoices.service.ts:481-570 | which refusal cancelling it gets |
| Outflows.OutflowsService.Create | src/outflows/outflows.service.ts:96-269 | takes the lines and saves an ACTIVE outflow, or nothing |
| Outflows.OutflowsService.Cancel | src/outflows/outflows.service.ts:315-380 | restores the lines of an ACTIVE outflow once |
| TradeAnswers.OutflowIff | src/outflows/outflows.service.ts:96-269 | an outflow is saved exactly when it has lines that are orderable and all their units are there |
| TradeAnswers.CancelOutflowIff | src/outflows/outflows.service.ts:315-380 | exactly an ACTIVE outflow is cancelled, giving back its lines |
| Refusals.OutflowRefused | src/outflows/outflows.service.ts:96-225 | which refusal an outflow gets |
| Transactions.TransactionsService.Create | src/transactions/transactions.service.ts:36-87 | checks the warehouses its type needs, then adds, takes or leaves the stock and saves the row |
| Transactions.TransactionsService.UpdateInventoryQuantities | src/transactions/transactions.service.ts:345-375 | IN adds each line, OUT takes each line, TRANSFER moves nothing |
| Transactions.TransactionsService.Remove | src/transactions/transactions.service.ts:241-292 | undoes the transaction's movement and deletes its row, or refuses and keeps both |
| TradeAnswers.TransactionIff | src/transactions/transactions.service.ts:36-87 | when a manual transaction of each type is saved, and what it does to the rows |
| TradeAnswers.TransactionMovesIff | src/transactions/transactions.service.ts:203-292 | deleting one undoes it, an IN exactly if its units are still there; editing reaches only its date and warehouses |
| Refusals.TransactionRefused | src/transactions/transactions.service.ts:36-87 | which refusal a manual transaction gets, saved or deleted |
| Discharges.DischargeRequestsService.Complete | src/discharge-requests/discharge-requests.service.ts:240-398 | takes the requested stock, records an outflow of the same lines and completes the request, together |
| Discharges.DischargeRequestsService.Reject | src/discharge-requests/discharge-requests.service.ts:403-453 | rejects a pending request and moves nothing |
| TradeAnswers.DischargeIff | src/discharge-requests/discharge-requests.service.ts:63-156 | a discharge is requested exactly for rows that each hold the line, deleted ones included |
| TradeAnswers.DischargeMovesIff | src/discharge-requests/discharge-requests.service.ts:240-453 | exactly a pending discharge whose units are there is completed, leaving one outflow of its lines; exactly a pending one is rejected |
| Refusals.DischargeRefused | src/discharge-requests/discharge-requests.service.ts:63-300 | which refusal a discharge gets, requested or completed |
| Transfers.TransferRequestsService.Create | src/transfer-requests/transfer-requests.service.ts:62-180 | accepts lines stocked in the source warehouse, between two different warehouses |
| Transfers.TransferRequestsService.Approve | src/transfer-requests/transfer-requests.service.ts:240-312 | approves a pending request whose lines are stocked, each on its own |
| Transfers.TransferRequestsService.Send | src/transfer-requests/transfer-requests.service.ts:319-379 | marks an approved request as sent |
| Transfers.TransferRequestsService.Reject | src/transfer-requests/transfer-requests.service.ts:502-561 | rejects a pending request |
| Transfers.TransferRequestsService.Cancel | src/transfer-requests/transfer-requests.service.ts:716-776 | cancels a request that is not yet completed, rejected or cancelled |
| Transfers.TransferRequestsService.Complete | src/transfer-requests/transfer-requests.service.ts:568-627 | executes a sent request once, or changes nothing; confirming receipt by code does the same |
| Transfers.TransferRequestsService.ApplyInventoryTransfer | src/transfer-requests/transfer-requests.service.ts:633-714 | the two loops take every line at the source, then add it to a row of the destination matching the item as the request was read, or create one under a suffixed SKU |
| TransferAnswers.TransferLandsWell | src/transfer-requests/transfer-requests.service.ts:648-700 | each line lands on a row of the destination in the name and category of the item as the request read it, under its SKU if that row was there; a row is created, under the suffixed SKU, only where none fits, and only for a line |
| TransferAnswers.RequestIff | src/transfer-requests/transfer-requests.service.ts:62-180 | a request is accepted exactly between two different warehouses, with each line on its own in stock in the first |
| TransferAnswers.RequestMovesIff | src/transfer-requests/transfer-requests.service.ts:240-379 | who is approved, rejected, sent and cancelled, and that nothing but status and date changes |
| TransferAnswers.ExecutedRow | src/transfer-requests/transfer-requests.service.ts:568-627 | only a SENT request is executed, and what its row then holds |
| Refusals.RequestRefused | src/transfer-requests/transfer-requests.service.ts:62-180 | the first line of a request that is missing, elsewhere or short decides its refusal |
| StockTakes.StockTakeService.Create | src/stock-take/stock-take.service.ts:31-108 | opens a stock take with one uncounted line per live item of the warehouse, unless one is open there |
| StockTakes.StockTakeService.UpdateItem | src/stock-take/stock-take.service.ts:160-244 | records a count against the quantity held at that moment |
| StockTakes.StockTakeService.Complete | src/stock-take/stock-take.service.ts:246-375 | completes a fully counted stock take, applying the variances found as relative changes if asked to |
| StockTakes.StockTakeService.ApplyCounts | src/stock-take/stock-take.service.ts:293-321 | the loop applies each line's variance with a guarded decrement or an increment |
| StockTakes.StockTakeService.Cancel | src/stock-take/stock-take.service.ts:377-419 | cancels a stock take that is not completed and moves nothing |
| StockTakeAnswers.OpeningIff | src/stock-take/stock-take.service.ts:36-81 | a stock take is opened exactly when none of the warehouse is in progress, with exactly one line, uncounted and expecting the quantity held, for exactly the live rows of the warehouse |
| StockTakeAnswers.CountIff | src/stock-take/stock-take.service.ts:160-244 | an item is counted exactly while the stock take is in progress and lists it; its line, and nothing else, gets the count, what the row holds then and the difference |
| StockTakeAnswers.AppliesIff | src/stock-take/stock-take.service.ts:293-321 | counts can be applied exactly when each row that lost units is live and holds them; each listed row then moves by its own difference |
| StockTakeAnswers.CompletionIff | src/stock-take/stock-take.service.ts:246-375 | exactly a stock take in progress with every line counted and, if asked to apply them, applicable counts is completed |
| Refusals.CountsRefused | src/stock-take/stock-take.service.ts:293-321 | the first row that cannot lose what was counted too little decides the refusal |
| StockTakeAnswers.CancelIff | src/stock-take/stock-take.service.ts:377-419 | any stock take but a completed one is cancelled, moving nothing |
| StockTakeAnswers.RowsIff | src/inventory/inventory.service.ts:375-481 | rows are entered and edited exactly while no other row has the SKU |
| Ledger.LandAllClosedForm | src/transfer-requests/transfer-requests.service.ts:633-714 | landing a transfer adds exactly its units, to rows already there or to new ones |
| Ledger.ApplyVariancesClosedForm | src/stock-take/stock-take.service.ts:293-321 | applying the counts moves every row by exactly the variances found on it |
| Ledger.CreateSaleSound | src/sales/sales.service.ts:386-470 | saving a sale keeps every quantity equal to what was entered plus the documents' effects |
| Ledger.CancelSaleSound | src/sales/sales.service.ts:865-937 | so does cancelling one, from DRAFT or from ACTIVE |
| Ledger.CreatePurchaseSound | src/purchase-invoices/purchase-invoices.service.ts:263-372 | so does a purchase, its new serialized rows included |
| Ledger.CompleteTransferSound | src/transfer-requests/transfer-requests.service.ts:633-714 | so does a transfer, on both sides and on rows it creates |
| Ledger.CompleteStockTakeSound | src/stock-take/stock-take.service.ts:246-342 | so does a completed stock take, with or without its changes |
| Ledger.CompleteDischargeSound | src/discharge-requests/discharge-requests.service.ts:255-364 | so does a completed discharge, through the outflow it records |
| Runs.StepSound | src/transactions/transactions.service.ts:241-286 | every call of every service keeps the ledger: quantity is what was entered plus the documents' effects by status, and is never negative |
| Runs.RunSound | src/inventory/stock.util.ts:22-58 | the same over every run of every service |
| Runs.EveryRunIsSound | src/inventory/stock.util.ts:22-58 | the same from empty tables, where nothing is assumed |
| Report.StockMovementsService.FindAll | src/reports/stock-movements.service.ts:139-388 | the six filtered queries, the movements built from them, the cut and the order: the specified report |
| Report.StockMovementsService.PushDocument | src/reports/stock-movements.service.ts:271-318 | one movement when saved and, if cancelled, the opposite one at that time |
| Report.StockMovementsService.PushStockTakes | src/reports/stock-movements.service.ts:343-378 | the gains and the losses of each applied stock take, as the loops push them |
| Report.NewestFirstSorts | src/reports/stock-movements.service.ts:380-387 | sorted newest first, nothing lost or added, and equal dates in their original order |
| Report.ReportIsCutOfHistory | src/reports/stock-movements.service.ts:143-250 | the prefiltered queries and the cut give exactly the full history's movements in the period, of the type and in the visible warehouses, including documents saved outside the period and cancelled in it, here with rows read in table order |
| Report.RowOrderOnlyMovesTies | src/reports/stock-movements.service.ts:143-250 | whatever order the queries answer in, the report is newest first and has the same movements on every date |
| ReportAnswers.ReportHolds | src/reports/stock-movements.service.ts:380-387 | a movement is in the report exactly when it is in the history, its date is in the period, its type is the one asked for or none is, and it touches a visible warehouse; and it is there as often |
| ReportAnswers.HistoryHolds | src/reports/stock-movements.service.ts:252-378 | a movement is in the history exactly when some document of the six kinds made it, said in the documents' columns |
| Reconciliation.HistoryReconcilesPerItem | src/reports/stock-movements.service.ts:157-378 | row by row, stock is what was entered plus IN less OUT lines of the rebuilt history, less what transfers sent and plus what they landed |
| Reconciliation.TransfersCancelOut | src/transfer-requests/transfer-requests.service.ts:633-714 | over all rows, transfers sent exactly what they landed |
| Reconciliation.HistoryReconciles | src/reports/stock-movements.service.ts:157-378 | all rows together hold what was entered plus IN less OUT |
| Reconciliation.ReportReconcilesInEveryRun | src/reports/stock-movements.service.ts:139-388 | in every run of every service the unbounded, unrestricted report reconciles with the quantities |
| Reconciliation.ReportReconcilesPerItemInEveryRun | src/reports/stock-movements.service.ts:139-388 | the same for every single row, transfers accounted for |
| RoundTrips.OutflowRoundTrip | src/outflows/outflows.service.ts:185-364 | creating an outflow and cancelling it restores every row |
| RoundTrips.SaleRoundTrip | src/sales/sales.service.ts:340-937 | creating an ACTIVE sale and cancelling it restores every row |
| RoundTrips.ConfirmRoundTrip | src/sales/sales.service.ts:738-937 | so does confirming a quotation and cancelling the sale |
| RoundTrips.PurchaseRoundTripIff | src/purchase-invoices/purchase-invoices.service.ts:489-570 | a purchase just saved can be cancelled, restoring every row, exactly when it bought no serialized unit |
| Witnesses.SerializedPurchaseStays | src/purchase-invoices/purchase-invoices.service.ts:519-530 | a run from empty tables with a purchase of one serialized unit that cannot be cancelled |
| RoundTrips.TransactionRoundTripIff | src/transactions/transactions.service.ts:241-286 | a transaction just saved can be deleted, restoring every row, except exactly an IN naming a soft-deleted item |
| Witnesses.EntryOnDeletedRowStays | src/transactions/transactions.service.ts:241-286 | a run from empty tables with an IN transaction for a deleted row that cannot be deleted |
| Lifecycles.RunLater | src/sales/sales.service.ts:745-838 | over any run no document goes back to an earlier status, moved lines never change and settled documents stay as they are |
| Lifecycles.AppliedOnce | src/common/locking.ts:21-30 | each movement of an existing document (confirm, cancel, delete, complete, execute) goes through at most once, whatever is called in between |
| Lifecycles.CancelledSaleInHistory | src/sales/sales.service.ts:926-936 | a cancelled quotation is absent from the movement history for good; a cancelled sale shows its movement and the opposite one |
| Counting.RunOneOpen | src/stock-take/stock-take.service.ts:36-62 | at most one stock take per warehouse is in progress in any run of whole calls |
| CountRaces.OneOpenInAnyInterleaving | src/stock-take/stock-take.service.ts:36-62 | creations interleaved statement by statement, with completions between, never leave two open in one warehouse: the lock on the warehouse row keeps what was found true until the insert |
| CountRaces.AloneIff | src/stock-take/stock-take.service.ts:36-81 | undisturbed, a creation opens one exactly when the warehouse has none open |
| Counting.CompletionIsCountPlusNet | src/stock-take/stock-take.service.ts:169-342 | completing with changes leaves an item at its count plus the net of every movement since it was counted |
| TransferFacts.TransferConserves | src/transfer-requests/transfer-requests.service.ts:633-714 | executing a transfer conserves the total stock for any lines, repeated items and new destination rows included, however long before the request was read |
| TransferFacts.RunSkus | prisma/schema.prisma:174 | no two inventory rows ever share a SKU |
| TransferFacts.TransferIff | src/transfer-requests/transfer-requests.service.ts:633-714 | a sent transfer of any lines, its items as the request read them, goes through exactly when every item is live and holds all the units named of it, every SKU to be made up is free and no item that needs one is named twice |
| TransferFacts.RepeatedItemIsRefused | src/transfer-requests/transfer-requests.service.ts:683-700 | a request naming an item twice, the item having a SKU and no row at the destination, can never be executed |
| TransferFacts.OneLineTransferIff | src/transfer-requests/transfer-requests.service.ts:683-700 | for one line, however long ago the request was read: exactly when the row is live and holds the units and the destination has a row for the item as read, or no SKU already in use has to be made up for one |
| TransferFacts.CurrentTransferIff | src/transfer-requests/transfer-requests.service.ts:683-700 | the condition for one line, its item as the request read it: the row is live and holds the units and the SKU it would need is free, or none is needed |
| TransferFacts.SecondTransferIsRefused | src/transfer-requests/transfer-requests.service.ts:683-700 | an item with a SKU reaches a destination it has no row in through a transfer only once, whatever else is called between and whenever the requests were read |
| Witnesses.SecondTransferStuck | src/transfer-requests/transfer-requests.service.ts:683-700 | a run from empty tables with two sent requests for one item, of which the second can no longer be executed |
| Witnesses.RepeatedItemStuck | src/transfer-requests/transfer-requests.service.ts:62-180 | a run from empty tables with one sent request naming an item twice, in stock and its SKU free, that cannot be executed |
| Rows.RunExtends | src/inventory/inventory.service.ts:375-481 | without direct edits every row keeps its name, category, SKU and warehouse for good |
| Money.Round2IsNearest | src/common/money.ts:25-27 | rounds to the nearest hundredth, up on a tie |
| Money.TaxIsSumOfLines | src/sales/sales.service.ts:90-101 | the document's tax is the sum of the rounded line taxes |
| Money.TaxWithinHalfCentPerLine | src/sales/sales.service.ts:90-101 | the tax of n lines is within n half-cents of the exact tax |
| Money.TaxAtMostTotal | src/sales/sales.service.ts:90-101 | with percentages from 0 to 100 the tax is between zero and the total |
| Money.TaxSurvivesStorageIff | src/sales/sales.service.ts:766-769 | the tax computed from the stored percentage equals the quoted one on every line total exactly when the request had at most two decimals |
| Money.LineTotalMatchesStoredPriceIff | src/sales/sales.service.ts:300-301 | line totals match the stored unit price for every quantity exactly when the price has at most two decimals |
| Quotations.ConfirmKeepsAmounts | src/sales/sales.service.ts:766-833 | through any creates and edits with percentages at stored precision, confirming changes no amount of a quotation |
| Witnesses.ConfirmingChangesTax | src/sales/sales.service.ts:766-833 | a run from empty tables in which a quotation at 12.345 per cent shows one tax and the sale it becomes another |
| Accounts.PayBooks | src/payments/payments.service.ts:77-114 | recording a payment keeps active payments within the document's total, also once the amount is rounded for storage |
| Accounts.CancelSaleBooks | src/sales/sales.service.ts:899-914 | cancelling a sale leaves no active payment on it and keeps every client's credit bound |
| Accounts.VoidPaymentBooks | src/payments/payments.service.ts:257-306 | voiding a payment raises what is owed by no more than what has been voided on the client's credit sales in the limit's currency |
| Accounts.RunBooks | src/sales/sales.service.ts:114-195 | over every run: amounts are the sums of their lines, active payments fit an ACTIVE document and are nothing on any other, and open credit stays within the limit plus the payments voided on credit sales in the limit's currency |
| Balances.LimitHoldsWithoutVoids | src/sales/sales.service.ts:114-195 | as long as no payment is voided, a client's open balances never exceed its limit |
| Balances.OutstandingIsSumOfBalances | src/sales/sales.service.ts:154-183 | what the credit check adds up in two queries is the sum of the open sales' balances |
| Balances.GroupByIff | src/common/balance/balance.util.ts:32-43 | a document is in the grouped sums exactly when it has an active payment, with the sum of all of them |
| Balances.AttachedIsBalance | src/common/balance/balance.util.ts:24-51 | the batched balance of every listed document is the one the payment check computes, those without payments included |
| Jobs.AtomicallyGood | src/outflows/outflows.service.ts:324-364 | one transaction run alone keeps quantities nonnegative and equal to what the documents' statuses say, lines applied at most once, and one outflow per discharge |
| Jobs.TransferConserves | src/transfer-requests/transfer-requests.service.ts:589-607 | executing a transfer conserves the stock even when it is executed again |
| JobAnswers.SaleJobs | src/sales/sales.service.ts:738-953 | the statement-level jobs of a sale are refused for its status exactly where the service call is, and lead to the same status |
| JobAnswers.ConfirmJobMovesAlike | src/sales/sales.service.ts:801-838 | where a confirmation goes through, the job's row updates all run and leave the same quantities |
| JobAnswers.CancelJobMovesAlike | src/sales/sales.service.ts:899-925 | the same where a cancellation does |
| JobAnswers.CreationJobsMoveAlike | src/sales/sales.service.ts:340-475 | and where a sale, a quotation or an outflow is saved |
| JobAnswers.PurchaseJobsMoveAlike | src/purchase-invoices/purchase-invoices.service.ts:226-372 | and a purchase, on the rows there were |
| JobAnswers.StockTakeJobsMoveAlike | src/stock-take/stock-take.service.ts:293-321 | and where a stock take is completed with its changes |
| JobAnswers.TransferJobsMoveAlike | src/transfer-requests/transfer-requests.service.ts:633-714 | and where a transfer that creates no row is executed |
| JobAnswers.StockTakeJobs | src/stock-take/stock-take.service.ts:246-419 | the same statuses for stock takes, applied or not |
| JobAnswers.DischargeJobs | src/discharge-requests/discharge-requests.service.ts:240-453 | the same statuses for discharges, the unlocked rejection included |
| JobAnswers.TransferJobs | src/transfer-requests/transfer-requests.service.ts:240-776 | the same statuses for transfers, the unlocked sending included |
| JobAnswers.OtherJobsMoveAlike | src/purchase-invoices/purchase-invoices.service.ts:481-586 | the same quantities for cancelled purchases and outflows and completed discharges |
| JobAnswers.TransactionJobsMoveAlike | src/transactions/transactions.service.ts:345-375 | and for manual transactions, saved and deleted |
| JobAnswers.EditJobs | src/stock-take/stock-take.service.ts:160-178 | the statement level edits lines in exactly the statuses in which the services do |
| JobAnswers.LookAlike | src/outflows/outflows.service.ts:188-216 | and its unlocked look finds short, among live rows, exactly what theirs does |
| Interleaving.RunIsSerial | src/common/locking.ts:21-30 | any interleaving of any number of transactions leaves what its committed jobs leave when run one at a time in commit order, none refused |
| Interleaving.RunIsGood | src/inventory/stock.util.ts:28-32 | in any interleaving no committed or pending quantity is negative, each document's lines are applied at most once and statuses agree with the stock, and no discharge has two outflows |
| Races.RunsAlone | src/common/locking.ts:21-30 | conversely every serial step is an interleaving: a transaction nobody disturbs does what its job does alone |
| Races.TellsTruthIff | src/discharge-requests/discharge-requests.service.ts:417-441 | after any interleaving every request's status tells what happened to its stock exactly when no committed rejection or sending overwrote COMPLETED |
| Races.RejectedWithStockGone | src/discharge-requests/discharge-requests.service.ts:417-441 | an interleaving that ends with a rejected discharge whose stock was taken |
| Races.TransferExecutedTwice | src/transfer-requests/transfer-requests.service.ts:335-354 | an interleaving in which one transfer is executed twice |
| Races.StartsAreReached | src/transfer-requests/transfer-requests.service.ts:240-312 | both of these begin in states that ordinary jobs reach |
| MoneyRaces.RoomIsSafe | src/sales/sales.service.ts:154-183 | the two queries of the credit check, with commits in between, never understate what is owed |
| MoneyRaces.RacesKeepMoneyOk | src/payments/payments.service.ts:141-179 | in any interleaving of payments, voidings, confirmations and cancellations, active payments fit an ACTIVE document and are zero on others, and credit stays within the limit plus what was voided on credit sales |
| MoneyAlone.AloneIff | src/payments/payments.service.ts:77-114 | undisturbed, the same transactions go through exactly where they should: a payment up to what is left, a cancellation with nothing paid, a credit sale up to the limit |
| MoneyJobs.PayAlike | src/payments/payments.service.ts:77-114 | the interleaved payment accepts and records on a sale what the service call does |
| MoneyJobs.VoidAlike | src/payments/payments.service.ts:257-306 | so does the voiding, the payment found by its place on the sale |
| MoneyJobs.CancelAlike | src/sales/sales.service.ts:856-953 | so does the cancellation |
| MoneyJobs.CreateAlike | src/sales/sales.service.ts:340-475 | so does saving a quotation or sale of the client: same credit check, same document |
| MoneyJobs.ConfirmAlike | src/sales/sales.service.ts:738-838 | so does confirming, its recomputed amounts written first |
| Loans.LoansService.Create | src/loans/loans.service.ts:124-257 | the checks (distinct items of the source warehouse, none on an open loan), then the insert; LoanOverlaps takes the two apart |
| Loans.LoansService.SendLoan | src/loans/loans.service.ts:262-335 | sends a pending loan with a new code |
| Loans.LoansService.ConfirmReceipt | src/loans/loans.service.ts:340-399 | the scanned send code receives its loan, if SENT |
| Loans.LoansService.InitiateReturn | src/loans/loans.service.ts:404-480 | starts the return of a RECEIVED, OVERDUE or legacy ACTIVE loan with a new code |
| Loans.LoansService.ConfirmReturn | src/loans/loans.service.ts:485-545 | the scanned return code returns its loan, if RETURN_PENDING |
| Loans.LoansService.ManualConfirmReceipt | src/loans/loans.service.ts:631-698 | receives a SENT loan, or an OVERDUE one not received yet |
| Loans.LoansService.ManualConfirmReturn | src/loans/loans.service.ts:706-774 | returns a RETURN_PENDING loan, or an OVERDUE one already received |
| Loans.LoansService.ReturnLoan | src/loans/loans.service.ts:927-989 | the older return without a code, refused only where the loan never went out or is settled |
| Loans.LoansService.Cancel | src/loans/loans.service.ts:991-1043 | cancels any loan that is not returned or cancelled |
| Loans.LoansService.CheckOverdueLoans | src/loans/loans.service.ts:1125-1142 | afterwards no visible loan past its due date is SENT or RECEIVED, and only such loans have changed, only in status |
| LoanAnswers.CreationIff | src/loans/loans.service.ts:124-206 | a creation passes its checks exactly for distinct items of the source warehouse that no open loan names |
| LoanAnswers.CreationRefused | src/loans/loans.service.ts:124-206 | which refusal a creation gets |
| LoanAnswers.SendIff | src/loans/loans.service.ts:262-335 | exactly a PENDING loan is sent, under a code not used before |
| LoanAnswers.InitiateReturnIff | src/loans/loans.service.ts:404-480 | a return is started exactly from RECEIVED, OVERDUE or legacy ACTIVE, under a code not used before |
| LoanAnswers.ByHandIff | src/loans/loans.service.ts:631-774 | which loans are received and returned by hand, and the columns then written |
| LoanAnswers.EndingIff | src/loans/loans.service.ts:927-1043 | which loans are returned directly and which cancelled, and the columns then written |
| LoanAnswers.ReceiptByCodeIff | src/loans/loans.service.ts:340-399 | in any run, scanning the send code of a loan receives that loan, exactly if it is SENT |
| LoanAnswers.ReturnByCodeIff | src/loans/loans.service.ts:485-545 | in any run, scanning the return code of a loan returns that loan, exactly if it is RETURN_PENDING |
| LoanAnswers.OverdueIs | src/loans/loans.service.ts:1125-1142 | the check marks exactly the visible SENT and RECEIVED loans past their due date |
| LoanLifecycle.OverdueChecksCompose | src/loans/loans.service.ts:1125-1142 | two checks are as good as the later one, and repeating one changes nothing |
| LoanLifecycle.RunKept | src/loans/loans.service.ts:285-309 | over any run RETURNED and CANCELLED are never left, and the receipt date and both codes are each written at most once |
| LoanLifecycle.ChangesAreBounded | src/loans/loans.service.ts:1132-1141 | a loan changes status at most as often as its measure says, six times from PENDING, despite the OVERDUE and RECEIVED loop |
| LoanLifecycle.RunRegular | src/loans/loans.service.ts:124-257 | in every run, inserts coming any time after their checks, a returned loan had been sent and no code belongs to two loans |
| LoanOverlaps.ApartIff | src/loans/loans.service.ts:185-230 | no item is ever on two open loans exactly when every loan is inserted while its items are still free, whatever runs between the checks and the insert |
| LoanOverlaps.CreationKeepsApartIff | src/loans/loans.service.ts:185-230 | a creation that passed its checks keeps items apart exactly when no loan opened between the checks and the insert names one of them |
| LoanOverlaps.OneItemTwoLoans | src/loans/loans.service.ts:185-230 | two creations that both check first leave one item on two open loans |
| LoanLifecycle.CodeFindsItsLoan | src/loans/loans.service.ts:340-399 | scanning a code finds the loan it was handed out for |
| LoanLifecycle.ReceivedFirstIff | src/loans/loans.service.ts:946-988 | after any run every loan that came back, or whose return was started, had been received, exactly when no call of the run started (with a fresh code) or recorded the return of an OVERDUE or legacy ACTIVE loan that had not |
| LoanLifecycle.ReturnedNeverReceived | src/loans/loans.service.ts:946-988 | a run from an empty table in which a loan is returned without ever arriving |
| Numbering.CaiRangesService.Create | src/cai-ranges/cai-ranges.service.ts:54-65 | refuses an empty range, deactivates the others if this one is active and starts at rangeStart |
| Numbering.CaiRangesService.Update | src/cai-ranges/cai-ranges.service.ts:67-112 | a used range keeps its start, no range drops below what it issued, and an unused one restarts at its new start |
| Numbering.NumberingService.AssignSaleNumber | src/sales/sale-numbering.service.ts:32-86 | takes the active range's next number, refusing an expired or exhausted range, or else the fallback counter's |
| Numbering.NumberingService.AssignNumber | src/common/numbering/document-numbering.service.ts:34-58 | takes and prints the next number of the document's own counter, creating the configuration row if there is none |
| NumberingAnswers.SaleNumberIff | src/sales/sale-numbering.service.ts:32-86 | with an active range a sale takes its next number exactly if the range has not expired and is not used up; with none, the fallback counter's |
| NumberingAnswers.CounterIs | src/common/numbering/document-numbering.service.ts:18-58 | each document takes the number of its own counter, printed under its own prefix, and moves no other counter |
| NumberingAnswers.PaddedTo | src/common/numbering/document-numbering.service.ts:57 | a number is padded to the width, never cut, and reads as itself |
| NumberingAnswers.CreateRangeIff | src/cai-ranges/cai-ranges.service.ts:54-65 | a range is made exactly if it ends after it starts, and an active one deactivates the others |
| NumberingAnswers.UpdateRangeIff | src/cai-ranges/cai-ranges.service.ts:67-112 | when an edit goes through, with which refusal otherwise, and every column it leaves |
| NumberingFacts.RunGapless | src/cai-ranges/cai-ranges.service.ts:54-111 | in every run of whole calls, aborts included, each range has issued exactly rangeStart..currentNumber-1 in order and within its end, every counter 1, 2, ..., and at most one range is active |
| NumberingFacts.PrintedApart | src/purchase-invoices/purchase-numbering.service.ts:18-41 | no two numbers of one CAI range or of the prefixed counters print alike |
| NumberingFacts.UnusedEditIff | src/cai-ranges/cai-ranges.service.ts:84-98 | one edit of an unused range, of one end or both, goes through exactly when it leaves a proper range whose end is not below the old start less one, and restarts it at its new start |
| NumberingFacts.OneEditReachesIff | src/cai-ranges/cai-ranges.service.ts:84-108 | a single edit takes an unused range to a..b exactly when b is not below its old start less one |
| NumberingFacts.TwoEditsReach | src/cai-ranges/cai-ranges.service.ts:84-108 | any a..b is reached in at most two edits while nothing was issued |
| NumberingFacts.LowerRangeTakesTwoEdits | src/cai-ranges/cai-ranges.service.ts:84-108 | a new range that one edit cannot lower and two can |
| Correlatives.PrintRoundTrip | src/common/numbering/document-numbering.service.ts:57 | reading a printed number gives back its prefix and value, for every natural number and padding |
| Correlatives.PrintsApart | src/sales/sale-numbering.service.ts:59-62 | numbers that print alike are the same number of the same prefix |
| Refresh.StockLevelService.ScheduleRefresh | src/alerts/stock-level.service.ts:45-51 | restarts the debounce timer |
| Refresh.StockLevelService.OnTimer | src/alerts/stock-level.service.ts:47-50 | clears the timer and refreshes |
| Refresh.StockLevelService.RefreshNow | src/alerts/stock-level.service.ts:55-61 | starts a refresh, or asks the one running for another |
| Refresh.StockLevelService.OnRefreshEnd | src/alerts/stock-level.service.ts:62-70 | the finally block: schedules again if asked to meanwhile |
| Refresh.NoRefreshIsLost | src/alerts/stock-level.service.ts:45-71 | in any order of events at most one refresh runs, and at rest some refresh has started after the last request |
| Refresh.EveryAskIsAnswered | src/alerts/stock-level.service.ts:45-71 | at rest, a refresh has started at or after every call that asked for one, whatever the order of events |
| Refresh.ComesToRest | src/alerts/stock-level.service.ts:45-71 | left alone the loop comes to rest within seven steps of its own |
| Alerts.AlertsService.SyncStatuses | src/alerts/stock-level.service.ts:73-104 | the grouped updates give every live item its computed status, and count the stale ones |
| Alerts.AlertsService.CheckLowStock | src/alerts/alerts.service.ts:32-232 | the whole check leaves the specified alerts, in whatever order the existing ones are read, and clears its flag; while one runs it does nothing |
| Alerts.AlertsService.RaiseStockAlerts | src/alerts/alerts.service.ts:41-127 | one alert per low item without an unresolved one, and the alert read first for an item that ran out becomes OUT_OF_STOCK, the query's order being free |
| Alerts.AlertsService.RaiseExpiryAlerts | src/alerts/alerts.service.ts:129-192 | one alert per live item expiring within the horizon that has no such alert |
| AlertAnswers.StatusIs | src/inventory/inventory-status.ts:17-30 | which status a row has, by its type, assignment, quantity and minimum |
| AlertAnswers.OldAlert | src/alerts/alerts.service.ts:75-211 | what a check does to each alert there was, whatever the order: resolved, rewritten or left |
| AlertAnswers.NewAlert | src/alerts/alerts.service.ts:75-192 | each new alert is for a low row without an open one, or for one that expires soon |
| AlertAnswers.Raised | src/alerts/alerts.service.ts:75-192 | every low row without an open alert gets one, and every row that expires soon without such an alert gets that |
| AlertFacts.SyncSettles | src/alerts/stock-level.service.ts:73-104 | after a sync every live status is the computed one, and a second sync updates nothing |
| AlertFacts.RefreshIff | src/alerts/stock-level.service.ts:106-118 | after a refresh an item has an unresolved alert exactly when it is live and computes to LOW_STOCK or OUT_OF_STOCK, whatever alerts there were and in whatever order they are read |
| AlertFacts.OutIsReported | src/alerts/alerts.service.ts:111-126 | an item that ran out has an unresolved OUT_OF_STOCK alert, in whatever order the alerts are read |
| AlertFacts.LowIsReportedIff | src/alerts/alerts.service.ts:75-126 | a low item is reported as LOW_STOCK exactly when it had such an alert or no unresolved one at all, in whatever order the alerts are read |
| AlertRepeats.CheckRepeatsIff | src/alerts/alerts.service.ts:59-211 | checking again, later, raises new alerts exactly when a live item expires soon by then and is in stock or in use, or has no expiry alert yet, or has run out and its only expiry alert is the row read first for it |
| AlertRepeats.ExpirySurvivesIff | src/alerts/alerts.service.ts:111-126 | a low item's EXPIRING_SOON alerts outlive the stock part of the check exactly unless it ran out and the row read is the only one |
| AlertWitnesses.RaisedByEveryCheck | src/alerts/alerts.service.ts:129-211 | an item in stock for which each of two checks raises an alert and resolves it |
| AlertWitnesses.RaisedByAnotherOrder | src/alerts/alerts.service.ts:59-77 | a low, expiring item that runs out, for which another order of the same query raises a third alert |
| AlertWitnesses.OutHidesLow | src/alerts/alerts.service.ts:75-126 | an item that was out and is low again, never reported as low |
| AlertWitnesses.ExpiryHidesLow | src/alerts/alerts.service.ts:75-126 | a low item whose low-stock alert was resolved by hand and whose expiry alert keeps it from being raised again |

## Left out

- Controllers, request validation, guards, warehouse access checks, sockets, push messages, email, PDF and Excel: I/O and library glue. Bounds that validation guarantees (quantities of at least 1, percentages from 0 to 100, positive payments) are types or preconditions.
- Integer and numeric(14,2) overflow: quantities and cents are unbounded.
- Deadlocks: transactions may wait for each other's rows, and the model says nothing about who then aborts.
- Existence and activity of warehouses, suppliers and categories, unique service tags, and unique supplier invoice numbers: easy refusals that change no stock.
- Error codes: where callers wrap a shortage or a wrong status in a code of their own, the service level has one INSUFFICIENT_STOCK and one INVALID_STATUS.
- Bulk update, bulk import, bulk delete and reset of the inventory: they write unchecked absolute quantities. A direct edit is one step to a nonnegative quantity.
- Hard deletion (of CAI ranges, loans, or rows cascading from a deleted warehouse), and overlaps between different CAI ranges.
- Editing clients: limits and limit currencies stay fixed during a run.
- The grouping of a public discharge form into one request per warehouse: each request is created on its own.
- The printed number of a sale, loan, transfer, outflow or purchase is modelled with the counters, not as a column of its row; a refused number refuses the caller's transaction.
- Discounts, notes, attachments, users, pagination, search, statistics, cache and audit rows.
- Statement level: creating serialized units, and the destination rows a transfer creates, are part of the service level only; a transfer's lines there name existing rows on both sides. A stock take's count is an edit of its lines. The credit check's client row and the stock rows are locked in separate models.
- Loans: each operation on an existing loan is one atomic step, since it holds the loan's row lock or is a single statement; only creation, which takes none, is split into its checks and its insert.
- Counting.RunOneOpen: takes each creation as one step; CountRaces.OneOpenInAnyInterleaving has the lock and the interleavings.
- Report.StockMovementsService.FindAll: reads rows in table order. The queries ask for none; Report.RowOrderOnlyMovesTies says what another order can change.
- Alerts.AlertsService.RaiseStockAlerts: raises new alerts in the order of the item table; only the order in which existing alerts are read matters to what the check does, and that one is free.
- NumberingFacts.RunGapless: takes making the configuration row as part of the numbering that first needs one. The source looks for the row and makes it without a lock, so two first numberings at once can make two rows, each with every counter at 1, and later numberings may then take a number again.
- TransferFacts.TransferIff: takes the items as the request read them to be their rows' current name, category, SKU and warehouse; TransferFacts.OneLineTransferIff has a request read at any time, for one line.
- CAI range administration is one atomic step, as its own comment assumes.
- Interleaving.RunIsGood: promises less of transfers and discharges than of other documents, because sending and rejecting do not lock; Races.TellsTruthIff is the exact statement.
- Refresh: a refresh that fails half-way is not modelled; it logs the error and ends like any other. Alerts assumes nothing changes the items while one runs.
