/** What the stored documents say: bills, supplier credit notes, payments, lots, counts and drawers. */
module Documents {
  import opened Folds
  import opened Inventory
  import opened Entities
  import opened Taxes
  import opened Numbering
  import opened StateModel
  import opened BatchTracking
  import opened Handlers
  import opened SettlementInvariant
  import opened Acceptance

  // ---- purchase invoices ----

  /** `costs` are the receipt's lines at their order cost and at the tax rate of their product. */
  ghost predicate AtOrderCosts(s: State, lines: seq<OrderLine>, costs: seq<CostLine>)
  {
    && |costs| == |lines|
    && forall i :: 0 <= i < |lines| ==>
         && lines[i].productId in s.registry.products
         && costs[i] == CostLine(lines[i].quantity, lines[i].unitCost, s.registry.products[lines[i].productId].taxRate)
  }

  /** An invoice is dated today, is due its supplier's non-negative terms later, and totals the received lines. */
  lemma BillIsDue(s: State, c: Call, branch: Id, receiptId: Id, costs: seq<CostLine>)
    requires InvoiceReceipt(s, c, branch, receiptId).verdict == Accepted
    requires AtOrderCosts(s, s.purchasing.goodsReceipts[receiptId].lines, costs)
    ensures var g, bills := s.purchasing.goodsReceipts[receiptId],
                InvoiceReceipt(s, c, branch, receiptId).state.purchasing.purchaseInvoices;
            var supplier := s.registry.suppliers[g.supplierId];
            && c.ids(0) in bills
            && var v := bills[c.ids(0)];
               && v.invoiceDate == c.today && v.dueDate >= v.invoiceDate && v.supplierId == g.supplierId
               && (supplier.termsDays >= 0 ==> v.dueDate - v.invoiceDate == supplier.termsDays)
               && (supplier.termsDays < 0 ==> v.dueDate == v.invoiceDate)
               && v.totals == PurchaseTotals(supplier.gstin, s.registry.branches[branch].gstin, costs)
  {
    hide PurchaseTotals, NextNumber, Advance;
    var lines := s.purchasing.goodsReceipts[receiptId].lines;
    assert costs == Map(lines, Costed(s.registry.products));
  }

  // ---- supplier returns ----

  /** `costs` are the returned quantities at the cost the invoice first shows and at the tax rate of their product. */
  ghost predicate AtInvoiceCosts(s: State, bill: PurchaseInvoice, lines: seq<Line>, costs: seq<CostLine>)
  {
    && |costs| == |lines|
    && forall i :: 0 <= i < |lines| ==>
         && lines[i].productId in s.registry.products && costs[i].quantity == lines[i].quantity
         && costs[i].taxRate == s.registry.products[lines[i].productId].taxRate
         && exists j :: FirstInvoiced(bill.lines, lines[i].productId, j) && costs[i].unitCost == bill.lines[j].unitCost
  }

  lemma {:induction false} ReturnCostsAre(s: State, bill: PurchaseInvoice, lines: seq<Line>, costs: seq<CostLine>)
    requires AtInvoiceCosts(s, bill, lines, costs)
    ensures costs == Map(lines, ReturnCost(s.registry.products, bill.lines))
  {
    hide FindLine;
    forall i | 0 <= i < |lines| ensures costs[i] == ReturnCost(s.registry.products, bill.lines)(lines[i]) {
      FirstInvoicedIsFound(bill.lines, bill.lines, lines[i].productId, 0);
    }
  }

  /** A supplier credit note names its invoice and credits exactly the returned lines at the invoice's costs. */
  lemma NoteIsCredited(s: State, c: Call, branch: Id, billId: Id, lines: seq<Line>, costs: seq<CostLine>)
    requires SendBack(s, c, branch, billId, lines).verdict == Accepted
    requires AtInvoiceCosts(s, s.purchasing.purchaseInvoices[billId], lines, costs)
    ensures var bill, notes := s.purchasing.purchaseInvoices[billId],
                SendBack(s, c, branch, billId, lines).state.purchasing.supplierReturns;
            && c.ids(0) in notes
            && var n := notes[c.ids(0)];
               && n.invoiceId == billId && n.supplierId == bill.supplierId && n.lines == lines
               && n.totals == PurchaseTotals(s.registry.suppliers[bill.supplierId].gstin,
                                             s.registry.branches[branch].gstin, costs)
  {
    hide PurchaseTotals, NextNumber, Advance, Map, FirstFault, SupplierReturnFault, AtInvoiceCosts;
    ReturnCostsAre(s, s.purchasing.purchaseInvoices[billId], lines, costs);
  }

  /** A payment records its amount and exactly what is still owed on the invoice after it. */
  lemma PaymentIsRecorded(s: State, c: Call, branch: Id, billId: Id, amount: int, method_: string)
    requires PaymentsSafe(s.purchasing) && amount > 0 && c.ids(0) !in s.purchasing.supplierPayments
    requires Pay(s, c, branch, billId, amount, method_).verdict == Accepted
    ensures var p := Pay(s, c, branch, billId, amount, method_).state.purchasing;
            && c.ids(0) in p.supplierPayments
            && var slip := p.supplierPayments[c.ids(0)];
               && slip.amount == amount && slip.invoiceId == billId && slip.paidOn == c.today
               && slip.paymentMethod == method_ && slip.supplierId == s.purchasing.purchaseInvoices[billId].supplierId
               && slip.outstandingAfter == Owed(p, billId) == Owed(s.purchasing, billId) - amount
  {
    hide SumMap, NextNumber, Advance, PaymentsSafe;
    PayKeepsSafe(s, c, branch, billId, amount, method_);
  }

  // ---- disputes ----

  /** A new dispute is open from today, about the one document named, with that document's supplier. */
  lemma DisputeIsOpened(s: State, c: Call, branch: Id, receipt: Option<Id>, bill: Option<Id>, kind: string)
    requires Handlers.Dispute(s, c, branch, receipt, bill, kind).verdict == Accepted
    ensures var ds := Handlers.Dispute(s, c, branch, receipt, bill, kind).state.purchasing.vendorDisputes;
            && c.ids(0) in ds
            && var d := ds[c.ids(0)];
               && d.open && d.openedOn == c.today && d.disputeType == kind && d.branchId == branch
               && d.receiptId == receipt && d.invoiceId == bill
               && (receipt != None ==> receipt.value in s.purchasing.goodsReceipts
                                       && d.supplierId == s.purchasing.goodsReceipts[receipt.value].supplierId)
               && (bill != None ==> bill.value in s.purchasing.purchaseInvoices
                                    && d.supplierId == s.purchasing.purchaseInvoices[bill.value].supplierId)
  {
  }

  // ---- lots ----

  /** Every lot of an intake is stored as it was entered, with nothing written off. */
  lemma {:induction false} LotsAreStored(lots: map<Id, BatchLot>, c: Call, g: GoodsReceipt, branch: Id,
                                         inputs: seq<LotInput>, i: nat)
    requires i < |inputs| && forall m, n :: m != n ==> c.ids(m) != c.ids(n)
    ensures var stored := StoreLots(lots, c, g, branch, inputs);
            && c.ids(i) in stored
            && var l := stored[c.ids(i)];
               && l.productId == inputs[i].productId && l.batchNumber == inputs[i].batchNumber
               && l.quantity == inputs[i].quantity && l.expiry == inputs[i].expiry && l.writtenOff == 0
               && l.tenantId == c.tenantId && l.branchId == branch && l.receiptId == g.id
  {
    var n := |inputs| - 1;
    if i < n { LotsAreStored(lots, c, g, branch, inputs[..n], i); }
  }

  // ---- counts ----

  /**
   * The line of a stock count shows the stock that the lines before it left, the counted figure, and their difference;
   * a product counted twice is compared with its own first figure the second time.
   */
  lemma {:induction false} CountIsRecorded(ledger: Ledger, branch: Id, lines: seq<Line>, n: nat)
    requires n < |lines|
    ensures |CountResults(ledger, branch, lines)| == |lines|
    ensures var r, l := CountResults(ledger, branch, lines)[n], lines[n];
            && r.productId == l.productId && r.counted == r.closing == l.quantity
            && r.expected == LastCounted(lines[..n], l.productId, Stock(ledger, l.productId, branch))
            && r.variance == r.counted - r.expected
  {
    hide Stock;
    var front := lines[..|lines| - 1];
    CountLength(ledger, branch, front);
    if n < |lines| - 1 {
      CountIsRecorded(ledger, branch, front, n);
      assert front[..n] == lines[..n];
    } else {
      CountsSetStock(ledger, branch, front, lines[n].productId, branch);
    }
  }

  lemma {:induction false} CountLength(ledger: Ledger, branch: Id, lines: seq<Line>)
    ensures |CountResults(ledger, branch, lines)| == |lines|
  {
    if |lines| > 0 { CountLength(ledger, branch, lines[..|lines| - 1]); }
  }

  // ---- customers ----

  /** A counted sale is the customer's last; a customer without a GSTIN takes over the one of the sale. */
  lemma VisitIsCounted(s: State, c: Call, branch: Id, k: Id, gstin: Option<string>, lines: seq<Line>,
                       payment: int, method_: string, session: Option<Id>)
    requires Sell(s, c, branch, Some(k), gstin, lines, payment, method_, session).verdict == Accepted
    ensures var t := Sell(s, c, branch, Some(k), gstin, lines, payment, method_, session).state.selling;
            && k in t.customers && c.ids(1) in t.sales && c.ids(0) in t.invoices
            && t.customers[k].lastSaleId == Some(c.ids(1)) && t.sales[c.ids(1)].paymentAmount == payment
            && t.customers[k].visitCount == s.selling.customers[k].visitCount + 1
            && t.customers[k].lifetimeValue == s.selling.customers[k].lifetimeValue + t.invoices[c.ids(0)].grandTotal
            && (s.selling.customers[k].gstin != None ==> t.customers[k].gstin == s.selling.customers[k].gstin)
            && (s.selling.customers[k].gstin == None ==> t.customers[k].gstin == gstin)
            && forall j :: j in s.selling.customers && j != k ==> t.customers[j] == s.selling.customers[j]
  {
    hide Map, FirstFault, SaleInvoiceOf, Advance, PricingFault;
  }
}
