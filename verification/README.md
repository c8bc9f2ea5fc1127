# Verified model of the legacy retail engine

This project models the transactional core of the store platform's legacy API and the reports that must agree with
it, and proves properties of that model with Dafny 4.11. To check it, use `dafny verify dfyconfig.toml`.

What is modelled:

* **The state machine.** `Handlers` says, for each POST handler, what it leaves in memory and whether it accepts,
  refuses (an HTTP error) or crashes (an uncaught look-up error). A handler often changes memory before it finds out
  that it must refuse, so each outcome carries the memory as it is at that moment. `AppStates.AppState` is the mutable
  record with one method per handler, proved against those outcomes. `Middleware.Service` adds the copy, the saved
  snapshot and the roll-back. `Runs` is about whole runs: any sequence of requests and restarts from an empty disk.
* **One invariant.** `Consistency.Consistent` is what every reachable state satisfies, in memory and on disk, crashes
  included: the ledger reconciles with the documents, drawers are faithful caches, order, receipt, lots and invoice form
  a chain, returns and payments belong to their invoice, and all five kinds of document are numbered without gaps. Two
  things a half-way crash does break have their exact condition: that memory equals the disk, and that customer totals
  equal those of the stored sales.
* **What requests need and do.** `Acceptance` gives the exact condition under which each request succeeds, in a state and
  over runs; `Lifecycles` and `TenantGate` say what a run makes of every status, `StockEffects` how every request moves
  the stock, and `Pricing` and `Documents` what the stored documents charge, credit and record.
* **Batch lots.** The greedy first-expiry-first-out loop, its closed form, and the effect of a write-off.
* **The settlement pipeline.** Eleven report loops, each proved equal to a function of its documents, and the theorems that
  tie those functions to each other and to the state. `SettlementDates` and `ReportFigures` state every figure from the
  documents and dates alone, `ReportOrder` the order of the records.
* **Rounding, customer reports, the receiving board and the licence gate.**

Money and quantities are integers in hundredths, tax rates are in hundredths of a percent, dates are day numbers, and
`round` is rounding to the nearest integer with ties to even. Dictionaries are maps. Where a report iterates over a
dictionary's values it takes them as a list in any order. One request is processed at a time, with
persistence switched on. `uuid4` is a stream of ids that are new, different and without a colon; new
means that no document has such an id and no stored sale names it as its session.

Findings about the code, each stated as a lemma:

* A sale or an exchange that names an unknown product after a posted line, or an unknown cash session, raises an
  uncaught `KeyError` after it has changed memory. The middleware then neither saves nor rolls back.
  `Crashes.StrandsExactly` gives the exact condition, `Runs.RunsSaveExactly` says when memory and disk differ,
  `Runs.AcceptedSavesAll` that the next accepted request saves the partial work, `Runs.StepKeepsHistory` that a restart
  before that loses it. A sale stored that way is missing from its customer's totals (`Scenarios.SomeRunsLoseSales`);
  `Runs.RunsKeepCustomers` says which sales the totals miss.
* A supplier return is checked line by line against earlier returns only, so a request that repeats a product can
  return more than was invoiced. `SettlementLimits.ReturnBoundExact` gives the exact condition and
  `SettlementLimits.RepeatedReturnOverruns` a reachable state for every such request.
* Tax rates are not validated. Below -100% a return can make a settled invoice owe money again, which can then be paid
  beyond its total. `SettlementLimits.RateFloorExact` gives the exact condition, `SettlementLimits.LowRateOverpays` the runs.
* A supplier return does not check that the invoice belongs to its tenant. Credit posted under another tenant counts for
  the payment handler but not for the reports: `ReportAgreement.ReportsShowTheState` gives the exact condition,
  `TenantCredit.SomeCreditIsNotShown` a run, and
  `TenantCredit.RunsShowWhatIsOwed` shows that the missing check would be enough.
* A sale is taxed on its whole subtotal at the rate of its first line; the model does the same.

## Model

| member | source | states |
|---|---|---|
| Runs.BoundaryIsExact | services/api/store_api/main.py:517-553 | after any request of a run, memory equals what a restart would recover from disk if and only if the request was accepted, or the two were equal before and the request does not crash half-way; the invariant holds on both sides and neither has lost anything recorded |
| Runs.RunsStayConsistent | services/api/store_api/main.py:517-553 | in every run of requests and restarts, with or without half-way crashes, memory and the recovered snapshot both satisfy the whole invariant at every boundary, and memory differs from the disk by ledger entries, sales, invoices and numbers of crashed requests only |
| Runs.RunsSaveExactly | services/api/store_api/main.py:517-553 | over every run memory equals the recovered snapshot if and only if no request crashed half-way since the last accepted request or restart |
| Runs.AcceptedSavesAll | services/api/store_api/main.py:548-552 | an accepted request saves everything in memory, with whatever work earlier crashes had stranded there |
| Runs.RunsKeepHistory | services/api/store_api/main.py:517-553 | between any two points of any run nothing saved is lost or rewritten: ledger entries, documents, approvals of orders and refunds, closed drawers, resolved disputes, write-offs, counters; nothing is lost from memory either, provided restarts happen only while memory and disk agree |
| Runs.StepKeepsHistory | services/api/store_api/main.py:481-484 | a step loses something from memory if and only if it is a restart while memory is ahead of the disk |
| Runs.RunsKeepPurchasing | services/api/store_api/main.py:517-553 | over every run, whatever crashes and restarts it holds, no purchasing document, product, supplier or branch is lost or rewritten |
| Runs.RunsKeepCustomers | services/api/store_api/main.py:2131-2145 | over every run the totals of every customer are those of the stored sales except the uncounted ones still there, in memory and on disk; so they equal those of all stored sales if and only if no uncounted sale is left |
| Runs.CountedRunsMissNothing | services/api/store_api/main.py:2131-2145 | no sale is missed over runs in which no sale to a known customer passes all its lines and then meets an unknown session |
| Runs.RunsStaySolvent | services/api/store_api/main.py:2669-2737 | over every interleaving of invoices, returns, payments, crashes and restarts no invoice is paid beyond its total and every payment recorded a non-negative outstanding amount, given product tax rates of at least -100% |
| Runs.RunsOweNoMore | services/api/store_api/main.py:2590-2737 | over every such run the outstanding amount of a stored invoice never increases |
| Runs.RunsStayBounded | services/api/store_api/main.py:2603-2656 | over every run whose return requests name no product twice, the quantity returned against an invoice never exceeds its line for that product |
| Runs.RefusedSaleIsUndone | services/api/store_api/main.py:2065-2136 | a sale into a closed session is refused after it posted stock, stored the invoice and the sale and took a number, and the world is nevertheless exactly what it was |
| Scenarios.SomeRunsLoseSales | services/api/store_api/main.py:2131-2135 | there is a run that ends with a sale paid into an unknown session: it crashes after it was stored, memory differs from disk, and the totals of its customer miss it |
| Scenarios.LeadsOn | services/api/store_api/main.py:517-553 | an accepted request leads from a reachable state to a reachable state, and from a consistent one to a consistent one |
| Scenarios.InvoicedIsReached | services/api/store_api/main.py:1772-1926 | any purchase of known products can be ordered, approved, received and invoiced, from a shop that a run can set up |
| Runs.SavedIsRecovered | services/api/store_api/main.py:548-552 | a saved snapshot recovers the state that was saved exactly when override and rule keys are their own |
| Crashes.StrandsExactly | services/api/store_api/main.py:517-553 | in a consistent state a request leaves partial work behind by crashing exactly when it is a sale or exchange that posts a line and then meets an unknown product or session; no other handler can |
| Crashes.SaleCrash | services/api/store_api/main.py:2065-2146 | exact condition, checkable before the call, under which a sale crashes after changing memory |
| Crashes.ExchangeCrash | services/api/store_api/main.py:2501-2577 | the same for an exchange; its return side can only be refused, because sold products are never lost |
| Crashes.TakeBackNeverStrands | services/api/store_api/main.py:2390-2452 | a sale return never crashes half-way in a consistent state |
| Crashes.SendBackNeverStrands | services/api/store_api/main.py:2590-2660 | a supplier return never crashes half-way in a consistent state |
| Crashes.ApproveNeverStrands | services/api/store_api/main.py:2479-2498 | approving a refund never crashes half-way: its credit note is always there to be returned |
| Crashes.CrashLeaves | services/api/store_api/main.py:2065-2577 | a crash keeps the whole invariant and changes nothing but the ledger, the stored sales and invoices and the counters; without a new ledger entry it changes nothing at all |
| CustomerTotals.CrashAndCustomers | services/api/store_api/main.py:2131-2145 | from a state that misses no sale, a crash leaves the customer totals faithful if and only if it is not a sale to a known customer whose lines all passed |
| CustomerTotals.CrashMisses | services/api/store_api/main.py:2131-2145 | a crash of that kind adds its sale to those the totals miss, any other adds none |
| CustomerTotals.MissedShows | services/api/store_api/customer_reporting.py:61-119 | totals that miss a sale of a named customer differ from those of the stored sales |
| Crashes.StockNeverStrands | services/api/store_api/main.py:1772-1843 | ordering and stock handlers fail, if at all, before their first write |
| Acceptance.AcceptedExactly | services/api/store_api/main.py:621-2763 | in a consistent state a valid request of any modelled handler succeeds if and only if everything it needs is in order before the call, stated on the stored documents: ownership, status, unused receipts and lots, sellable products, open drawers, what was sold, what is left to return, owed or in the lot |
| Acceptance.RunsAcceptExactly | services/api/store_api/main.py:517-553 | over every run a request on a tenant's path succeeds if and only if the tenant's latest change of status did not suspend it, the payload is valid and everything is in order |
| Acceptance.ValidExactly | services/api/store_api/main.py:90-283 | a payload passes validation if and only if its quantities, prices, costs and supplier payments are positive, its other amounts are not negative, and required texts and lots are there |
| TenantGate.SuspendedIsShutOut | services/api/store_api/main.py:535-538 | whatever a stored suspended tenant posts on its own path is refused, and memory and disk stay as they were |
| TenantGate.OthersAreServed | services/api/store_api/main.py:535-541 | any other valid request, a tenant that is not stored included, gets exactly what its handler makes of it; an invalid one is refused |
| TenantGate.StatusCanBeSet | services/api/store_api/main.py:621-639 | the status of exactly the stored tenants can be changed, and is what was asked for afterwards |
| TenantGate.RunsLockOut | services/api/store_api/main.py:535-538 | over every run, from an accepted suspension until an accepted reactivation every request on the tenant's path is refused and changes nothing; before and after every valid one gets the outcome of its handler |
| Lifecycles.RunsFollow | services/api/store_api/main.py:517-553 | whatever an accepted request sets, and a crash leaves alone, is over every run exactly what the latest accepted request that set it made of it |
| Lifecycles.RunsSetTenants | services/api/store_api/main.py:621-639 | a tenant is suspended, or active, exactly since its latest accepted creation or change of status |
| Lifecycles.RunsKeepOverrides | services/api/store_api/main.py:737-757 | over every run the override of a branch and product is exactly the one last saved |
| Lifecycles.RunsKeepRules | services/api/store_api/main.py:820-842 | over every run the reorder rule of a branch and product is exactly the one last saved |
| Lifecycles.RunsKeepProducts | services/api/store_api/main.py:690-704 | over every run a product has exactly the price and tax rate it was created with |
| Lifecycles.RunsKeepSuppliers | services/api/store_api/main.py:843-858 | over every run a supplier has exactly the name, GSTIN and terms it was created with |
| Lifecycles.RunsKeepOrders | services/api/store_api/main.py:1648-1668 | over every run an order keeps the branch, supplier and lines it was placed with |
| Lifecycles.RunsDecideOrders | services/api/store_api/purchase_approvals.py:11-55 | over every run an order is not requested, pending, approved or rejected exactly as its latest accepted placing, submission or decision says; a dispute is open until it is resolved |
| Lifecycles.RunsCloseDrawers | services/api/store_api/main.py:1360-1414 | over every run a drawer is open exactly until its closing, with the float it was opened with and the amount it was closed with |
| Lifecycles.RunsApproveRefunds | services/api/store_api/main.py:2441-2498 | over every run a refund is approved exactly since its return, if the clerk might approve it, or since its approval |
| StockEffects.AcceptedMovesStock | services/api/store_api/inventory.py:26-94 | every accepted request moves the stock of every item at every branch by exactly what it asks for: up for receipts, customer returns and arriving transfers, down for sales, supplier returns, write-offs and leaving transfers, to the counted figure for counts, and not at all otherwise |
| StockEffects.RunsAccountForStock | services/api/store_api/main.py:517-553 | over every run without half-way crashes the stock of every item at every branch is the sum of what the accepted requests moved |
| Inventory.PostedStock | services/api/store_api/inventory.py:26-43 | posted lines change the stock of their branch by their signed quantities and of no other |
| Inventory.TransfersMoveStock | services/api/store_api/inventory.py:45-70 | transferred quantities leave the source and arrive at the destination; other branches, and both if they are the same, keep their stock |
| Pricing.SaleIsAccepted | services/api/store_api/main.py:2065-2146 | a sale is accepted if and only if branch and customer are stored, it has lines, every product is stored and not inactive at the branch, and the session is open |
| Pricing.SaleIsPriced | services/api/store_api/main.py:418-424 | every stored line of an accepted sale carries the branch override's price if it has one and the list price otherwise; the invoice's subtotal is the sum of the stored lines' rounded amounts, its total adds the tax, and a cash drawer takes in that total |
| Pricing.RunsChargeLastPrice | services/api/store_api/main.py:2075-2087 | over every run an accepted sale charges each product at the price its branch last saved, and at the price the product was created with if the branch has saved none |
| Pricing.ReturnIsAccepted | services/api/store_api/main.py:2390-2427 | a sale return is accepted if and only if sale, invoice, branch and first product are stored, every line was sold, and the refund is within both what was paid and what the returned lines cost with tax |
| Pricing.ReturnIsCredited | services/api/store_api/main.py:2400-2440 | its credit note is over the returned quantities at the price the sale first charged for each product, plus tax |
| Pricing.ExchangeIsAccepted | services/api/store_api/main.py:2501-2560 | an exchange is accepted if and only if the returned goods were sold, the replacements can be sold and the session is open |
| Pricing.ExchangeIsPriced | services/api/store_api/main.py:2510-2577 | its totals are those of the returned lines at the prices they were sold at and of the replacements at the branch's prices, taxed line by line; the drawer takes in or pays out the difference |
| Documents.BillIsDue | services/api/store_api/main.py:1866-1926 | a purchase invoice is dated today, due exactly the supplier's non-negative terms later, and totals the received lines at their order cost and product tax rate |
| Documents.NoteIsCredited | services/api/store_api/main.py:2603-2656 | a supplier credit note is over the returned lines at the cost the invoice first shows for each product |
| Documents.PaymentIsRecorded | services/api/store_api/main.py:2681-2724 | a payment records its amount, date and method, and as outstanding exactly what is still owed after it |
| Documents.DisputeIsOpened | services/api/store_api/main.py:1939-1988 | a dispute is open from today, about the one document named, with that document's supplier |
| Documents.LotsAreStored | services/api/store_api/main.py:1835-1852 | every lot of an intake is stored with the product, batch number, quantity and expiry date entered, and nothing written off |
| Documents.CountIsRecorded | services/api/store_api/inventory.py:72-94 | a count line shows the stock the earlier lines left, the counted figure and their difference |
| Documents.VisitIsCounted | services/api/store_api/main.py:2140-2145 | an accepted sale is its customer's last, counted once with its total, and leaves other customers alone |
| Middleware.Service.Post | services/api/store_api/main.py:517-553 | one POST: suspended tenants refused (`TenantGate` says which), state copied, handler run, snapshot saved on success, copy put back on refusal, nothing done on a crash |
| Middleware.Service.TakeSnapshot | services/api/store_api/state.py:45-82 | a snapshot holds the plain dictionaries and lists the values of the three dictionaries with tuple keys |
| Middleware.Service.constructor | services/api/store_api/main.py:481-484 | start-up restores the saved snapshot, or starts empty |
| StateModel.RoundTrip | services/api/store_api/state.py:45-125 | restoring a snapshot gives back the state if and only if every override and reorder rule is filed under its own branch and product |
| StateModel.RebuildListing | services/api/store_api/state.py:90-95 | rebuilding a dictionary from its listed values restores it exactly when every value is filed under its own key |
| StateModel.RebuildCounters | services/api/store_api/state.py:119-121 | counters are restored from scope, fiscal year and value in any order |
| Consistency.AcceptedKeepsConsistent | services/api/store_api/main.py:517-553 | every accepted request of every modelled handler keeps the whole state invariant: own keys, references, drawers, ledger, chain, settlement and numbers |
| CustomerTotals.AcceptedMisses | services/api/store_api/main.py:2140-2145 | every accepted request keeps visit counts and lifetime values equal to those of the stored sales, except for the sales that were missed before |
| Consistency.BranchKeeps | services/api/store_api/main.py:737-842 | overrides and reorder rules stay filed under their own branch and product, and drawers stay faithful, when saved, opened or closed |
| Consistency.SellKeeps | services/api/store_api/main.py:2065-2146 | a sale that is not refused keeps the invariant, even when it crashes half-way |
| Consistency.SwapKeeps | services/api/store_api/main.py:2501-2577 | an exchange keeps the invariant whatever its outcome |
| Consistency.TakeBackKeeps | services/api/store_api/main.py:2390-2452 | an accepted sale return keeps the invariant |
| Consistency.ReceiveKeeps | services/api/store_api/main.py:1772-1804 | an accepted goods receipt keeps the invariant |
| Consistency.IntakeKeeps | services/api/store_api/main.py:1817-1853 | an accepted lot intake keeps the invariant |
| Consistency.InvoiceKeeps | services/api/store_api/main.py:1866-1926 | an accepted purchase invoice keeps the invariant |
| Consistency.SendBackKeeps | services/api/store_api/main.py:2590-2656 | an accepted supplier return keeps the invariant |
| Consistency.PayKeeps | services/api/store_api/main.py:2669-2724 | an accepted supplier payment keeps the invariant |
| Consistency.WriteOffKeeps | services/api/store_api/main.py:2740-2763 | an accepted expiry write-off keeps the invariant |
| History.AcceptedIsLater | services/api/store_api/main.py:517-553 | no accepted request loses or rewrites a recorded document, sale return, entry, order or refund approval, closed drawer or resolved dispute |
| History.SellingIsLater | services/api/store_api/main.py:2065-2577 | sales and exchanges lose nothing recorded whatever their outcome |
| History.SettleIsLater | services/api/store_api/main.py:2131-2139 | settling a session never touches a closed drawer or an opening float |
| History.OrderingIsLater | services/api/store_api/purchase_approvals.py:11-55 | approval is absorbing and order lines never change |
| LedgerInvariant.ReceiveReconciles | services/api/store_api/main.py:1788-1804 | for every item and branch, receipt entries in the ledger keep adding up to the stored goods receipts |
| LedgerInvariant.SendBackReconciles | services/api/store_api/main.py:2621-2656 | supplier-return entries keep adding up to minus the stored return notes |
| LedgerInvariant.WriteOffReconciles | services/api/store_api/main.py:2756-2762 | write-off entries keep adding up to minus the written-off quantities of the lots |
| LedgerInvariant.TransfersReconcile | services/api/store_api/inventory.py:45-70 | transfers of an item keep adding up to zero over all branches |
| LedgerInvariant.CountsReconcile | services/api/store_api/inventory.py:72-94 | counts disturb no other kind of entry |
| LedgerInvariant.SellingReconciles | services/api/store_api/main.py:2078-2096 | sales and customer returns disturb none of these totals |
| LedgerInvariant.IntakeReconciles | services/api/store_api/main.py:1835-1852 | new lots start with nothing written off, so recording them disturbs no total |
| Inventory.CountsSetStock | services/api/store_api/inventory.py:72-94 | a stock count leaves every counted product at its last counted figure; other products and branches keep their stock |
| Inventory.TransfersConserve | services/api/store_api/inventory.py:45-70 | a transfer creates and loses no stock and keeps old entries |
| Inventory.InventoryLedgerService.PostEntry | services/api/store_api/inventory.py:26-36 | the ledger grows by exactly the posted entry |
| Inventory.InventoryLedgerService.StockOnHand | services/api/store_api/inventory.py:38-43 | the loop computes the stock of the item at the branch |
| Inventory.InventoryLedgerService.TransferStock | services/api/store_api/inventory.py:45-70 | the source's stock falls and the destination's rises by the quantity, by one entry each |
| Inventory.InventoryLedgerService.ApplyStockCount | services/api/store_api/inventory.py:72-94 | posts the variance if there is one; the closing stock reported is the stock afterwards |
| TillInvariants.SellKeepsTill | services/api/store_api/main.py:2098-2145 | after a sale that is not refused every open or closed drawer still equals opening float plus cash of stored sales and exchanges, even when the sale crashed |
| TillInvariants.SellAndCustomers | services/api/store_api/main.py:2131-2145 | after a sale the customer totals equal those of the stored sales if and only if it was accepted, stored nothing or names no customer |
| TillInvariants.SwapKeepsTill | services/api/store_api/main.py:2546-2577 | after an exchange every drawer still equals opening float plus cash sales plus collected minus refunded balances |
| TillInvariants.ClosingKeepsTill | services/api/store_api/main.py:1391-1414 | closing records the variance against the expected close of the stored sales |
| TillInvariants.OpeningKeepsTill | services/api/store_api/main.py:1360-1378 | a new drawer expects exactly its opening float |
| TillInvariants.NewCustomerIsFaithful | services/api/store_api/main.py:860-872 | a new customer starts at zero, as the stored sales say |
| TillInvariants.TakeBackKeepsTill | services/api/store_api/main.py:2390-2452 | a sale return leaves drawers and customers alone and stores its credit note |
| Taxes.ExchangeBalance | services/api/store_api/finance.py:22-28 | the balance is the non-negative difference, its direction the sign, EVEN exactly at zero |
| ChainInvariant.ReceiveKeepsChain | services/api/store_api/main.py:1772-1804 | at most one receipt per order, always of an approved order of the same tenant, branch, supplier and lines |
| ChainInvariant.InvoiceKeepsChain | services/api/store_api/main.py:1866-1926 | at most one invoice per receipt, with the receipt's order, supplier and lines |
| ChainInvariant.IntakeKeepsChain | services/api/store_api/main.py:1817-1853 | at most one lot intake per receipt, covering the received quantity of every product |
| ChainInvariant.WriteOffKeepsChain | services/api/store_api/main.py:2749-2758 | written-off never exceeds received for any lot |
| ChainInvariant.DecideKeepsChain | services/api/store_api/purchase_approvals.py:32-49 | deciding an order breaks no receipt, because only pending orders are decided |
| ChainInvariant.SubmitKeepsChain | services/api/store_api/purchase_approvals.py:11-29 | submitting an order breaks no receipt, because approved orders are not submitted |
| ChainInvariant.AcceptedWriteOffFrame | services/api/store_api/main.py:2748-2778 | an accepted write-off of q lowers what its lot holds by exactly q when the whole allocation is recomputed; all other lots of the branch and all untracked stock are unchanged |
| ChainInvariant.AcceptedWriteOffReports | services/api/store_api/main.py:2765-2778 | the batch report built after an accepted write-off of q is the one before it, same untracked stock and same records, except that the lot shows q less remaining and q more written off, or is gone if q was all it held |
| ChainInvariant.WriteOffIsExact | services/api/store_api/main.py:2740-2763 | in a consistent chain a write-off is accepted if and only if the branch's batch report built before lists the lot with at least that much remaining; it crashes exactly when the lot is the branch's but a lot of the branch is of an unknown product; it is refused otherwise |
| Receiving.BuildReceivingBoard | services/api/store_api/receiving.py:16-74 | the board loop computes the records, the counts and the order that the lemma below speaks about |
| Receiving.CanReceiveIsExact | services/api/store_api/receiving.py:36-48 | over consistent documents the board lists the order, and `can_receive` is true exactly when creating the goods receipt would be accepted; RECEIVED exactly when a receipt exists |
| Receiving.BoardCountsOrders | services/api/store_api/receiving.py:36-58 | ready, blocked and received count the branch's orders that are approved without a receipt, not approved without one, and received |
| Numbering.KeysNeverCollide | services/api/store_api/purchasing.py:12-21 | counters of different kinds or branches never share a dictionary key, as branch ids hold no colon |
| Numbering.NumberInjective | services/api/store_api/compliance.py:28-31 | two printed numbers of a kind are equal only for the same counter value, beyond six digits as well |
| Numbering.NewDocumentKeepsGapFree | services/api/store_api/finance.py:8-11 | storing a document under the next number keeps the numbers of the branch exactly 1 .. counter, each once |
| Numbering.OtherKindKeepsGapFree | services/api/store_api/supplier_payables.py:11-14 | drawing a number of another kind leaves a kind gap-free |
| NumberInvariant.SellKeepsNumbers | services/api/store_api/main.py:2106-2130 | an accepted sale keeps all five kinds of document gap-free |
| NumberInvariant.TakeBackKeepsNumbers | services/api/store_api/main.py:2427-2440 | so does a sale return |
| NumberInvariant.InvoiceKeepsNumbers | services/api/store_api/main.py:1905-1926 | so does a purchase invoice |
| NumberInvariant.SendBackKeepsNumbers | services/api/store_api/main.py:2638-2656 | so does a supplier return |
| NumberInvariant.PayKeepsNumbers | services/api/store_api/main.py:2704-2724 | so does a supplier payment |
| SettlementInvariant.PayKeepsSafe | services/api/store_api/main.py:2681-2724 | a payment stays within the invoice, lowers its outstanding by exactly its amount and moves no other invoice |
| SettlementInvariant.SendBackKeepsSafe | services/api/store_api/main.py:2603-2656 | a return never raises any outstanding amount and keeps paid within total |
| SettlementInvariant.InvoiceKeepsSafe | services/api/store_api/main.py:1866-1926 | a new invoice moves no other outstanding amount |
| SettlementInvariant.SendBackStaysBounded | services/api/store_api/main.py:2603-2620 | a return request without repeated products keeps returned at most invoiced for every invoice and product |
| SettlementLimits.ReturnBoundExact | services/api/store_api/main.py:2603-2620 | a return request keeps returned within invoiced in every consistent state in which it is accepted, if and only if it names no product twice: lines are not checked against each other |
| SettlementLimits.RepeatedReturnOverruns | services/api/store_api/main.py:2603-2620 | for every request that repeats a product, a consistent state with one invoice line per product, reached by a run, in which it is accepted and more of the product comes back than was invoiced in all |
| SettlementLimits.RateFloorExact | services/api/store_api/main.py:2590-2737 | over all runs whose products are taxed at a given rate or more, no invoice is ever paid beyond its total, and none ever owes more than before, if and only if that rate is at least -100% |
| SettlementLimits.LowRateOverpays | services/api/store_api/main.py:2603-2737 | for every rate below -100%, a run in which an invoice over an untaxed and such a product totals zero, returning the second makes it owe money, and that amount is then paid |
| Solvency.AcceptedKeepsSolvent | services/api/store_api/main.py:2590-2737 | every accepted request keeps payments within invoices and raises no outstanding amount |
| Solvency.AcceptedStaysBounded | services/api/store_api/main.py:2603-2656 | every accepted request that repeats no product keeps returns within invoices |
| Taxes.ComputePurchaseTotals | services/api/store_api/purchasing.py:24-49 | the loop totals lines that are rounded and taxed one by one; grand total is exactly subtotal plus tax |
| Taxes.GstComponentsDrift | services/api/store_api/purchasing.py:24-49 | over n lines CGST + SGST + IGST differs from the tax total by at most n paise |
| Taxes.SplitDrift | services/api/store_api/compliance.py:13-25 | halving one tax amount drifts by at most one paisa |
| Taxes.TaxIsSplit | services/api/store_api/compliance.py:6-25 | between parties with the same known state code the tax is two equal halves, at most a paisa off in all, and no IGST; otherwise all of it is IGST |
| Taxes.LineAdds | services/api/store_api/purchasing.py:24-49 | one more line adds its own rounded amount, and the tax on that amount with its parts, to every total |
| Money.RoundsToEven | services/api/store_api/compliance.py:20-23 | rounding gives the one nearest integer, and on a tie the even one |
| Taxes.PartialReturnsCreditTheLine | services/api/store_api/purchasing.py:24-49 | returning a line at rate r in k parts credits the invoiced line total up to (k + 1)(1 + r/200) paise |
| Taxes.CreditNoteIsSingleLineTotal | services/api/store_api/main.py:2634-2638 | a one-line return is credited what the line total formula gives for its quantity |
| Taxes.LineTotalsNonNegative | services/api/store_api/purchasing.py:24-49 | line totals are non-negative for all positive quantities and costs if and only if the rate is at least -100% |
| BatchTracking.DepleteQueue | services/api/store_api/batch_tracking.py:55-76 | the greedy loop hands every lot of a product exactly the part of it above the depletion mark |
| BatchTracking.BuildBatchExpiryReport | services/api/store_api/batch_tracking.py:41-103 | the report lists exactly the lots that still hold stock, each once, with their remaining quantity and status, sorted, with the untracked total and both counts |
| BatchTracking.ListedIsStored | services/api/store_api/main.py:385-398 | a report built from the listed lots of a branch, in any order, shows the stored lots that hold stock and the untracked stock of their products |
| BatchTracking.RemainingIsExact | services/api/store_api/batch_tracking.py:55-76 | per product, remaining quantities add up to max(0, min(stock, tracked)), and with untracked stock to max(0, stock) |
| BatchTracking.FirstExpiryFirstOut | services/api/store_api/batch_tracking.py:55-66 | if a lot was depleted at all, every earlier lot of the product is fully used |
| BatchTracking.AtMostOnePartlyUsed | services/api/store_api/batch_tracking.py:55-66 | at most one lot of a product is partly used |
| BatchTracking.EarlierDateFirst | services/api/store_api/batch_tracking.py:55-66 | stock leaves the lot with the earlier expiry date first |
| BatchTracking.RecordSaysWhen | services/api/store_api/batch_tracking.py:12-17 | a lot is shown as expired exactly once its date is past, and as expiring soon on that date and up to thirty days before |
| BatchTracking.WriteOffFrame | services/api/store_api/batch_tracking.py:55-76 | writing q off a lot and the stock lowers its remaining by q and no other lot of the product changes |
| BatchTracking.WriteOffLeavesOtherProducts | services/api/store_api/batch_tracking.py:50-76 | lots of other products do not notice |
| BatchTracking.WriteOffKeepsUntracked | services/api/store_api/batch_tracking.py:54-60 | untracked stock is unchanged by a write-off |
| BatchTracking.ValidateBatchLots | services/api/store_api/batch_tracking.py:20-38 | accepts exactly the lots that name the received products and add up to the received quantity of each |
| BatchTracking.MatchedLotsCoverReceipt | services/api/store_api/batch_tracking.py:20-38 | accepted lots account for every product's received quantity |
| BatchTracking.MatchIsCover | services/api/store_api/batch_tracking.py:20-38 | over positive quantities lots are accepted if and only if they add up to what was received of every product |
| AppStates.AppState.DrawNumber | services/api/store_api/compliance.py:28-31 | the next number of the branch and kind, and the counter one higher |
| AppStates.AppState.SetTenantStatus | services/api/store_api/main.py:621-639 | unknown tenant crashes, otherwise its status is replaced |
| AppStates.AppState.SaveOverride | services/api/store_api/main.py:737-757 | the override is filed under its own branch and product |
| AppStates.AppState.SaveReorderRule | services/api/store_api/main.py:820-842 | refused when the target is below the minimum, otherwise filed under its own branch and product |
| AppStates.AppState.OpenCashSession | services/api/store_api/main.py:1360-1378 | a new open drawer expecting its float |
| AppStates.AppState.CloseCashSession | services/api/store_api/main.py:1391-1414 | unknown crashes, closed refused, otherwise closed with expected close and variance |
| AppStates.AppState.SettleSession | services/api/store_api/main.py:2131-2139 | unknown session crashes, closed refuses, cash moves the drawer, other methods do not |
| AppStates.AppState.PlacePurchaseOrder | services/api/store_api/main.py:1648-1668 | a new order, approval not requested |
| AppStates.AppState.SubmitOrder | services/api/store_api/purchase_approvals.py:11-29 | only from not requested or rejected, clearing the earlier decision |
| AppStates.AppState.DecideOrder | services/api/store_api/purchase_approvals.py:32-49 | only from pending, to approved or rejected |
| AppStates.AppState.CreateReceipt | services/api/store_api/main.py:1772-1804 | refused for foreign, received or unapproved orders; otherwise posts the lines and stores the receipt |
| AppStates.AppState.RecordLots | services/api/store_api/main.py:1817-1853 | refused for foreign receipts, repeated intake or lots that do not match |
| AppStates.AppState.CreatePurchaseInvoice | services/api/store_api/main.py:1866-1926 | one invoice per receipt, totals, due date and number as computed |
| AppStates.AppState.OpenDispute | services/api/store_api/main.py:1939-1988 | exactly one own document must be named; the dispute takes its supplier |
| AppStates.AppState.ResolveDispute | services/api/store_api/main.py:2002-2018 | only an open dispute of the tenant and branch |
| AppStates.AppState.CreateTransfer | services/api/store_api/main.py:2031-2053 | one transfer of every line, in order |
| AppStates.AppState.CountStock | services/api/store_api/main.py:2158-2179 | one count of every line, in order, each against the stock the earlier ones left |
| AppStates.AppState.CreateSale | services/api/store_api/main.py:2065-2146 | stock, invoice, sale, number, drawer and customer exactly as far as the handler gets before it fails |
| AppStates.AppState.ReturnSale | services/api/store_api/main.py:2390-2452 | stock, credit note, return and number exactly as far as the handler gets |
| AppStates.AppState.ApproveRefund | services/api/store_api/main.py:2479-2498 | the status changes before the credit note is looked up |
| AppStates.AppState.ExchangeSale | services/api/store_api/main.py:2501-2577 | returned and replacement lines, balance and drawer exactly as far as the handler gets |
| AppStates.AppState.ReturnToSupplier | services/api/store_api/main.py:2590-2656 | line by line check against the invoice and earlier notes, credit note at the end |
| AppStates.AppState.PaySupplier | services/api/store_api/main.py:2669-2724 | refused beyond the outstanding amount, otherwise stored with what remains |
| AppStates.AppState.WriteOffLot | services/api/store_api/main.py:2740-2763 | decides on the remaining quantity of the batch report built by the greedy loop |
| AppStates.AppState.RemainingInLot | services/api/store_api/main.py:385-400 | what the branch's batch report shows for a lot is its remaining quantity, or nothing at zero |
| AppStates.AppState.BranchBatchReport | services/api/store_api/main.py:385-398 | lists the lots, looks up the stock of their products and builds the report of the stored lots |
| AppStates.AppState.Handle | services/api/store_api/main.py:517-553 | every request reaches its handler and nothing else changes |
| SupplierPayables.InvoiceTotals | services/api/store_api/supplier_payables.py:37-49 | the two dictionaries hold the credited and paid total of every invoice |
| SupplierPayables.BuildSupplierPayablesReport | services/api/store_api/supplier_payables.py:29-97 | the loop computes the records and four totals |
| SupplierPayables.PayablesOutstanding | services/api/store_api/supplier_payables.py:57-88 | its outstanding total is the sum of the open amounts of the branch's invoices |
| ReportFigures.PayablesTotals | services/api/store_api/supplier_payables.py:57-97 | the other three totals are what the branch was invoiced, and what was credited and paid on those invoices |
| ReportFigures.PayableIsListed | services/api/store_api/supplier_payables.py:62-88 | every invoice of the branch is listed, as settled exactly when nothing is open and as unpaid exactly when nothing was credited or paid either |
| SupplierAging.BuildSupplierAgingReport | services/api/store_api/supplier_aging.py:33-120 | the loop computes the sorted records and four buckets |
| SupplierAging.AgingBuckets | services/api/store_api/supplier_aging.py:73-83 | each bucket is the sum of the open amounts of that age |
| SupplierAging.AgingOutstanding | services/api/store_api/supplier_aging.py:62-83 | the four buckets split the branch's open amount |
| SettlementDates.AgingByDays | services/api/store_api/supplier_aging.py:23-30 | the four figures are the open amounts of invoices of today or later, 1 to 30, 31 to 60 and more than 60 days ago |
| SupplierDueSchedule.BuildSupplierDueSchedule | services/api/store_api/supplier_due_schedule.py:39-141 | the loop computes the sorted records, five buckets and the overdue count |
| SupplierDueSchedule.DueOutstanding | services/api/store_api/supplier_due_schedule.py:69-98 | the five buckets split the branch's open amount |
| SettlementDates.DueBuckets | services/api/store_api/supplier_due_schedule.py:27-36 | the five figures are the open amounts of invoices due before today, today, in 1 to 7, in 8 to 30 and in more than 30 days |
| SettlementDates.DueCounts | services/api/store_api/supplier_due_schedule.py:69-141 | the two counts are the branch's open invoices and those due before today |
| SupplierStatements.BuildSupplierStatementReport | services/api/store_api/supplier_statements.py:34-121 | the loop computes one record per supplier, sorted, with totals |
| SupplierStatements.StatementOutstanding | services/api/store_api/supplier_statements.py:58-102 | the statements add up to the branch's open amount |
| SupplierStatements.StatementBuckets | services/api/store_api/supplier_statements.py:23-31 | each age bucket summed over the statements is the aging report's bucket |
| SettlementDates.StatementByDays | services/api/store_api/supplier_statements.py:23-31 | a statement's four figures are the open amounts of that supplier's invoices by the same ranges of days |
| ReportFigures.StatementTotals | services/api/store_api/supplier_statements.py:58-95 | a statement counts the supplier's invoices and open invoices at the branch and adds up what was invoiced, credited and paid |
| SupplierStatements.StatementOwes | services/api/store_api/supplier_statements.py:58-95 | a statement's outstanding is the open amount of that supplier's invoices |
| SupplierStatements.StatementRecords | services/api/store_api/supplier_statements.py:58-95 | there is exactly one statement for every supplier with an invoice at the branch and no other |
| SupplierStatements.OldestOpenInvoice | services/api/store_api/supplier_statements.py:97-102 | the oldest open invoice shown is the earliest-dated open one, the first on a tie |
| SupplierPaymentRun.BuildSupplierPaymentRun | services/api/store_api/supplier_payment_run.py:13-116 | the loop computes one record per supplier from the schedule, sorted, with totals |
| SupplierPaymentRun.PaymentRunStructure | services/api/store_api/supplier_payment_run.py:54-95 | releases grow from now to week to month and leave exactly what is due later; something is releasable now iff the most urgent status is OVERDUE or DUE_TODAY; the next due date is the earliest open one |
| SupplierPaymentRun.RunOutstanding | services/api/store_api/supplier_payment_run.py:31-58 | the run adds up to the branch's open amount |
| SupplierPaymentRun.RunOwes | services/api/store_api/supplier_payment_run.py:31-58 | a supplier's outstanding is the open amount of its invoices |
| SupplierPaymentRun.RunRecords | services/api/store_api/supplier_payment_run.py:31-58 | the payment run has exactly one record for every supplier that is owed money and no other |
| SettlementDates.ReleasesAreDue | services/api/store_api/supplier_payment_run.py:75-95 | a supplier's releases now, this week and this month are the open amounts of its invoices due within 0, 7 and 30 days, and what is due later those due after 30 |
| SettlementDates.RunTotalsAreDue | services/api/store_api/supplier_payment_run.py:98-116 | the run's totals are the same over the whole branch |
| SupplierSettlement.BuildSupplierSettlementReport | services/api/store_api/supplier_settlement.py:38-142 | the two loops compute one record per supplier with latest payment and risk, sorted, with totals |
| SupplierSettlement.SettlementMatchesRun | services/api/store_api/supplier_settlement.py:77-85 | per supplier the same amount is open as in the payment run, overdue plus due in 7 days is this week's release, and risk HIGH iff most urgent is OVERDUE |
| SupplierSettlement.SettlementOutstanding | services/api/store_api/supplier_settlement.py:56-85 | the report adds up to the branch's open amount |
| SupplierSettlement.SettlementRecords | services/api/store_api/supplier_settlement.py:56-115 | the report has exactly one record for every supplier that is owed money and no other |
| SettlementDates.ExposureIsDue | services/api/store_api/supplier_settlement.py:77-85 | a supplier's overdue figure is what is open on invoices due before today, and its figure for 7 days on those due from today to 7 days on |
| SettlementDates.ExposureTotals | services/api/store_api/supplier_settlement.py:118-142 | the report's totals are the same over the whole branch |
| SettlementDates.RiskIsExact | services/api/store_api/supplier_settlement.py:26-35 | risk is HIGH iff an open invoice is overdue, and OK iff none is due within 7 days and the branch has paid the supplier in the last 30 days |
| SupplierSettlement.LatestPaymentIsShown | services/api/store_api/supplier_settlement.py:87-115 | the latest payment is the one at the branch with the largest date, number and id; none exactly when there is none |
| SupplierPaymentRegister.BuildSupplierPaymentRegister | services/api/store_api/supplier_payment_register.py:12-118 | the nested loops compute the rows, method totals and latest date |
| SupplierPaymentRegister.RunBalance | services/api/store_api/supplier_payment_register.py:49-92 | the inner loop gives every payment the total paid so far and what remains |
| SupplierPaymentRegister.BalanceNeverRises | services/api/store_api/supplier_payment_register.py:49-66 | along an invoice's payments the remaining amount never rises |
| SupplierPaymentRegister.RegisterEndsAtPayables | services/api/store_api/supplier_payment_register.py:47-66 | after the last payment the remaining amount is the payables report's outstanding |
| SupplierPaymentRegister.ChannelsSplitPaid | services/api/store_api/supplier_payment_register.py:69-73 | the four method totals split the paid total |
| ReportFigures.MethodTotals | services/api/store_api/supplier_payment_register.py:67-71 | the four method totals are the registered payments by bank transfer, in cash, by UPI and in any other way |
| ReportFigures.LatestDateIs | services/api/store_api/supplier_payment_register.py:72-75 | the latest date shown is a payment's and no payment is later |
| SupplierPaymentRegister.RegisterMatchesPayables | services/api/store_api/supplier_payment_register.py:36-45 | the register's paid total is the payables report's |
| VendorDisputes.BuildVendorDisputeBoard | services/api/store_api/vendor_disputes.py:34-109 | the loop computes the sorted records and three counts |
| VendorDisputes.BoardCounts | services/api/store_api/vendor_disputes.py:55-64 | open and overdue counts are those of the branch's disputes, overdue meaning open for more than 7 days |
| ReportFigures.BoardCoversBranch | services/api/store_api/vendor_disputes.py:55-72 | open and resolved disputes are all disputes of the branch |
| SupplierExceptions.BuildSupplierExceptionReport | services/api/store_api/supplier_exceptions.py:18-125 | the loops compute one record per supplier, sorted, with two counts |
| SupplierExceptions.ExceptionCounts | services/api/store_api/supplier_exceptions.py:54-62 | a record counts the supplier's open and long-open disputes, and its status follows from them |
| SupplierExceptions.ExceptionsCoverBoard | services/api/store_api/supplier_exceptions.py:54-62 | open counts over all suppliers add up to the board's |
| SupplierExceptions.LatestDispute | services/api/store_api/supplier_exceptions.py:64-74 | the dispute shown is the most recently opened one, the last on a tie |
| SupplierSettlementBlockers.BuildSupplierSettlementBlockerReport | services/api/store_api/supplier_settlement_blockers.py:20-106 | the join loop computes the sorted records, hold counts and blocked totals |
| SupplierSettlementBlockers.BlockerRecords | services/api/store_api/supplier_settlement_blockers.py:48-82 | lists exactly the suppliers that are owed money and have an open dispute, each with its own payment-run and exception figures |
| ReportFigures.HoldIsExact | services/api/store_api/supplier_settlement_blockers.py:63-82 | a blocked supplier is on hard hold exactly when a dispute with it has been open for more than 7 days, and shows the amounts due within 0 and 7 days |
| SupplierSettlementBlockers.OpenExceptionsHold | services/api/store_api/supplier_settlement_blockers.py:48-52 | the exception dictionary holds exactly the suppliers with an open dispute, under their own record |
| SupplierEscalations.BuildSupplierEscalationReport | services/api/store_api/supplier_escalations.py:58-161 | the loop computes the sorted records, four status counts and three blocked totals |
| SupplierEscalations.EscalationIsExact | services/api/store_api/supplier_escalations.py:24-55 | every open dispute gets a record whose status says exactly: FINANCE iff the supplier is owed money and a dispute is open over 7 days or something is due; STALE iff nothing is owed and age exceeds 14; FOLLOW_UP iff nothing is owed and age is at most 7; OWNER otherwise |
| SupplierEscalations.EscalationRecords | services/api/store_api/supplier_escalations.py:93-144 | every record of the report is that of an open dispute of the branch |
| SupplierEscalations.EscalatedOnce | services/api/store_api/supplier_escalations.py:93-144 | disputes with ids of their own are escalated once each |
| SupplierEscalations.StatusesCoverOpenCases | services/api/store_api/supplier_escalations.py:148-156 | the four status counts add up to the board's open count and to the exception report's open counts |
| ReportFigures.EscalationCounts | services/api/store_api/supplier_escalations.py:148-156 | each status count is the number of the branch's open disputes that meet its condition on amounts and dates |
| SupplierEscalations.BlockedTotalsAreShares | services/api/store_api/supplier_escalations.py:157-159 | each blocked total is the sum over blocked suppliers of open disputes times blocked amount |
| SupplierEscalations.ReleaseMeansDue | services/api/store_api/supplier_payment_run.py:75-77 | something is releasable now exactly when an open invoice of the supplier is due today or earlier |
| ReportAgreement.SixReportsAgree | services/api/store_api/supplier_payables.py:57-88 | payables, aging, due schedule, statements, payment run and settlement give the same outstanding total |
| ReportAgreement.SuppliersAgree | services/api/store_api/supplier_settlement.py:56-85 | statement, payment run and settlement agree for every supplier |
| ReportOrder.RunInOrder | services/api/store_api/supplier_payment_run.py:98-105 | most to release now first, then the earliest due date |
| ReportOrder.SettlementInOrder | services/api/store_api/supplier_settlement.py:118-131 | high risk before watch before OK, then by overdue and by soon due amount |
| ReportOrder.EscalationsInOrder | services/api/store_api/supplier_escalations.py:137-147 | finance, owner, stale, follow-up; within a status the most blocked first |
| ReportOrder.BoardInOrder | services/api/store_api/vendor_disputes.py:91-101 | open before resolved, overdue before others, longest open first |
| ReportOrder.DueInOrder | services/api/store_api/supplier_due_schedule.py:118-126 | earliest due first, then the largest amount |
| ReportAgreement.ReportsShowTheState | services/api/store_api/main.py:2683-2702 | over a consistent state the open amount shown for an invoice is the one the payment handler checks, if and only if no credit on it was posted under another tenant or nothing is shown as open; without such credit a payment is accepted iff it is at most the amount shown |
| TenantCredit.SomeCreditIsNotShown | services/api/store_api/main.py:2599-2646 | a reachable state in which a return posted under another tenant halves what can be paid on an invoice, while every report of its tenant, and there is one, shows the full amount |
| TenantCredit.RunsOwnNotes | services/api/store_api/main.py:2599-2646 | over every run all return notes carry the tenant of their invoice if and only if no accepted return was posted under another tenant |
| TenantCredit.RunsShowWhatIsOwed | services/api/store_api/main.py:2683-2702 | over every run without such a return, every report of a tenant shows for each of its invoices the amount the payment handler checks |
| CustomerReports.HistoryMatchesCache | services/api/store_api/customer_reporting.py:61-119 | over consistent documents the history report succeeds, and where every stored sale was counted it recomputes exactly the cached visit count and lifetime value |
| CustomerReports.HistoryCounts | services/api/store_api/customer_reporting.py:61-119 | the history counts the returns and exchanges of the customer's sales and adds up the credit of the returns |
| CustomerReports.BuildBranchCustomerReport | services/api/store_api/customer_reporting.py:127-225 | the loops compute named customer rows, anonymous totals and activity rows, both sorted |
| CustomerReports.BranchTotalsSplit | services/api/store_api/customer_reporting.py:137-165 | named customers plus anonymous sales are the branch's invoiced total and its number of sales |
| CustomerReports.CustomerRowIs | services/api/store_api/customer_reporting.py:137-165 | a customer's row counts and adds up that customer's sales at the branch |
| CustomerReports.RepeatCustomers | services/api/store_api/customer_reporting.py:137-225 | a repeat customer is one with at least two sales at the branch |
| CustomerReports.ActivityRowIs | services/api/store_api/customer_reporting.py:167-206 | a customer's activity counts the returns and exchanges of that customer's sales at the branch, and their credit |
| CustomerReports.ActivityCoversCredit | services/api/store_api/customer_reporting.py:167-188 | activity rows account for the credit notes of the branch's named sales |
| Licenses.AllowedExactly | services/control-plane-api/store_control_plane/license_compliance.py:182-206 | a component is allowed iff it has a licence and all are allowed and none denied or under review; denied iff one is denied |
| Licenses.PassesExactly | services/control-plane-api/store_control_plane/license_compliance.py:182-307 | a surface passes if and only if every component with a denied licence, with a review licence if those block, or with none or an unlisted one if those block, is exempt by an exception for it |
| Licenses.ExpiresAfterTheDay | services/control-plane-api/store_control_plane/license_compliance.py:104-126 | an exception still holds on the day it expires on and fails the surface from the next |
| Licenses.ApplyLicenseExceptions | services/control-plane-api/store_control_plane/license_compliance.py:111-136 | fails iff an exception of the surface has expired; otherwise keeps exactly the findings no exception of the surface names |
| Licenses.ScanComponents | services/control-plane-api/store_control_plane/license_compliance.py:262-280 | the loop collects the findings and counts every component under its status |
| Licenses.Recount | services/control-plane-api/store_control_plane/license_compliance.py:287-296 | the second loop moves every removed finding from its status to allowed |
| Licenses.BuildSurfaceResult | services/control-plane-api/store_control_plane/license_compliance.py:241-307 | each non-allowed count is the number of surviving findings, allowed is the rest, and the surface passes iff no survivor blocks |
| Licenses.SummaryIsConserved | services/control-plane-api/store_control_plane/license_compliance.py:282-296 | the four counts add up to the component count and none is negative |
| Licenses.ExceptionOrderIsIrrelevant | services/control-plane-api/store_control_plane/license_compliance.py:119-134 | order and repetition of exceptions change neither the expiry error nor the result |

## Left out

- HTTP routing, headers, role and capability checks, response bodies and audit log entries.
- JSON encoding, file handling and partial writes; the disk is one optional snapshot value.
- Concurrent requests: the roll-back reassigns a shared variable, so atomicity is stated for one request at a time.
- Binary floating point and amounts finer than a hundredth.
- Operation without persistence, where refused requests keep partial effects, and the cutover mode that blocks legacy writes.
- Dictionaries of handlers that are not modelled: support sessions, staff, devices, print jobs, GST exports, IRN attachments, sync records; all of them are copied and saved like the others.
- Missing or malformed dates, empty strings in place of absent ids, and normalisation of GSTINs before the state code is read.
- Notes, references, HSN codes, next-action texts, and stock figures repeated in responses.
- Unsupported ledger entry types, which no handler posts.
- Purchase approval report, vendor billing board, payment activity, supplier performance, sales, stock and replenishment reports.
- Licence text normalisation, expression splitting and SBOM file reading; a component comes with its list of normalised licences.
- Runs.RunsStaySolvent: assumes product tax rates of at least -100%, the exact condition of `SettlementLimits.RateFloorExact`.
- Runs.RunsStayBounded: assumes return requests without repeated products, the exact condition of `SettlementLimits.ReturnBoundExact`.
- SupplierPaymentRegister.RegisterMatchesPayables: assumes invoices with ids of their own and payments filed at their invoice's branch, which every consistent state guarantees.
- Middleware.Service.Post: requires lots to be filed under their own ids, which every consistent state guarantees.
