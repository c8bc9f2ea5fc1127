/** What never changes once it is recorded: documents, closed drawers, approvals, posted entries. */
module History {
  import opened Folds
  import opened Inventory
  import opened Entities
  import opened Taxes
  import opened Numbering
  import opened StateModel
  import opened BatchTracking
  import opened Handlers
  import opened Frames

  /** Nothing recorded in `m` is lost or rewritten in `n`. */
  ghost predicate Kept<K, V>(m: map<K, V>, n: map<K, V>) { forall k :: k in m ==> k in n && n[k] == m[k] }

  ghost predicate RegistryLater(a: Registry, b: Registry)
  {
    Kept(a.branches, b.branches) && Kept(a.products, b.products) && Kept(a.suppliers, b.suppliers)
        && a.tenants.Keys <= b.tenants.Keys
  }

  /** Approval is absorbing. */
  ghost predicate OrdersLater(a: map<Id, PurchaseOrder>, b: map<Id, PurchaseOrder>)
  {
    forall k :: k in a ==> k in b && (a[k].status == Approved ==> b[k] == a[k]) && b[k].lines == a[k].lines
  }

  /** A lot only ever loses to write-offs. */
  ghost predicate LotsLater(a: map<Id, BatchLot>, b: map<Id, BatchLot>)
  {
    forall k :: k in a ==> k in b && b[k] == a[k].(writtenOff := b[k].writtenOff) && b[k].writtenOff >= a[k].writtenOff
  }

  /** Resolving a dispute is final. */
  ghost predicate DisputesLater(a: map<Id, VendorDispute>, b: map<Id, VendorDispute>)
  {
    forall k :: k in a ==> k in b && (!a[k].open ==> b[k] == a[k])
  }

  ghost predicate BuyingLater(p: Purchasing, q: Purchasing)
  {
    && OrdersLater(p.purchaseOrders, q.purchaseOrders) && LotsLater(p.batchLots, q.batchLots)
    && DisputesLater(p.vendorDisputes, q.vendorDisputes)
    && Kept(p.goodsReceipts, q.goodsReceipts) && Kept(p.purchaseInvoices, q.purchaseInvoices)
    && Kept(p.supplierReturns, q.supplierReturns) && Kept(p.supplierPayments, q.supplierPayments)
  }

  /** Closing a drawer is final: its closing amount, expected close and variance stay. */
  ghost predicate DrawersLater(a: map<Id, CashSession>, b: map<Id, CashSession>)
  {
    forall k :: k in a ==> k in b && (!a[k].open ==> b[k] == a[k]) && b[k].openingFloat == a[k].openingFloat
  }

  ghost predicate CustomersLater(a: map<Id, Customer>, b: map<Id, Customer>)
  {
    forall k :: k in a ==> k in b && b[k].visitCount >= a[k].visitCount
  }

  /** A sale return only ever gains its approval, once and for all. */
  ghost predicate RefundsLater(a: map<Id, CustomerReturnNote>, b: map<Id, CustomerReturnNote>)
  {
    forall k :: k in a ==>
      k in b && b[k] == a[k].(refundApproved := b[k].refundApproved) && (a[k].refundApproved ==> b[k].refundApproved)
  }

  ghost predicate SellingLater(a: Selling, b: Selling)
  {
    && DrawersLater(a.cashSessions, b.cashSessions) && CustomersLater(a.customers, b.customers)
    && Kept(a.invoices, b.invoices) && Kept(a.sales, b.sales) && Kept(a.creditNotes, b.creditNotes)
    && Kept(a.exchanges, b.exchanges) && RefundsLater(a.saleReturns, b.saleReturns)
  }

  ghost predicate CountersLater(a: Counters, b: Counters) { forall k :: k in a ==> k in b && a[k] <= b[k] }

  ghost predicate Later(s: State, t: State)
  {
    && RegistryLater(s.registry, t.registry) && BuyingLater(s.purchasing, t.purchasing)
        && SellingLater(s.selling, t.selling)
    && Kept(s.stockroom.transfers, t.stockroom.transfers) && Kept(s.stockroom.stockCounts, t.stockroom.stockCounts)
    && CountersLater(s.counters, t.counters) && s.ledger <= t.ledger
  }

  lemma LaterSame(s: State)
    ensures Later(s, s)
  {
  }

  lemma BuyingTransitive(p: Purchasing, q: Purchasing, r: Purchasing)
    requires BuyingLater(p, q) && BuyingLater(q, r)
    ensures BuyingLater(p, r)
  {
  }

  lemma SellingTransitive(a: Selling, b: Selling, c: Selling)
    requires SellingLater(a, b) && SellingLater(b, c)
    ensures SellingLater(a, c)
  {
  }

  lemma LaterTransitive(s: State, t: State, u: State)
    requires Later(s, t) && Later(t, u)
    ensures Later(s, u)
  {
    hide BuyingLater, SellingLater;
    BuyingTransitive(s.purchasing, t.purchasing, u.purchasing);
    SellingTransitive(s.selling, t.selling, u.selling);
  }

  lemma {:induction false} IntakeIsLater(lots: map<Id, BatchLot>, c: Call, g: GoodsReceipt, branch: Id,
                                         inputs: seq<LotInput>)
    requires forall n :: c.ids(n) !in lots
    ensures LotsLater(lots, StoreLots(lots, c, g, branch, inputs))
  {
    if |inputs| > 0 { IntakeIsLater(lots, c, g, branch, inputs[..|inputs| - 1]); }
  }

  lemma OrdersIsLater(s: State, c: Call, r: Request)
    requires FreshIds(s, c.ids) && IsOrdering(r) && !r.RecordLots?
    ensures Later(s, ApplyOrdering(s, c, r).state)
  {
    hide LotsMatch, StoreLots, LotsLater, RegistryLater, SellingLater, CountersLater, Map, DisputesLater;
    OrderingFrame(s, c, r);
    LaterSame(s);
    assert Unused(s, c.ids(0));
  }

  lemma OrderingIsLater(s: State, c: Call, r: Request)
    requires FreshIds(s, c.ids) && IsOrdering(r) && ApplyOrdering(s, c, r).verdict == Accepted
    ensures Later(s, ApplyOrdering(s, c, r).state)
  {
    if r.RecordLots? {
      hide LotsMatch, StoreLots, LotsLater, RegistryLater, SellingLater, CountersLater, OrdersLater, DisputesLater;
      LaterSame(s);
      assert forall n :: Unused(s, c.ids(n));
      IntakeIsLater(s.purchasing.batchLots, c, s.purchasing.goodsReceipts[r.receiptId], r.branchId, r.lots);
    } else {
      OrdersIsLater(s, c, r);
    }
  }

  lemma RegistryIsLater(s: State, c: Call, r: Request)
    requires FreshIds(s, c.ids) && IsRegistry(r)
    ensures Later(s, ApplyRegistry(s, c, r).state)
  {
    hide BuyingLater, SellingLater, CountersLater;
    RegistryFrame(s, c, r);
    assert Unused(s, c.ids(0));
    LaterSame(s);
  }

  lemma PartyIsLater(s: State, c: Call, r: Request)
    requires FreshIds(s, c.ids) && IsParty(r)
    ensures Later(s, ApplyParty(s, c, r).state)
  {
    hide BuyingLater, DrawersLater, CountersLater;
    PartyFrame(s, c, r);
    assert Unused(s, c.ids(0));
    LaterSame(s);
  }

  lemma BranchIsLater(s: State, c: Call, r: Request)
    requires FreshIds(s, c.ids) && IsBranch(r)
    ensures Later(s, ApplyBranch(s, c, r).state)
  {
    hide BuyingLater, CustomersLater, CountersLater;
    BranchFrame(s, c, r);
    assert Unused(s, c.ids(0));
    LaterSame(s);
  }

  lemma DisputeIsLater(s: State, c: Call, r: Request)
    requires FreshIds(s, c.ids) && IsDispute(r)
    ensures Later(s, ApplyDispute(s, c, r).state)
  {
    hide SellingLater, RegistryLater, CountersLater, OrdersLater, LotsLater, OwnedReceipt, OwnedInvoice;
    DisputeFrame(s, c, r);
    assert Unused(s, c.ids(0));
    LaterSame(s);
  }

  lemma BillingIsLater(s: State, c: Call, r: Request)
    requires FreshIds(s, c.ids) && IsBilling(r) && ApplyBilling(s, c, r).verdict == Accepted
    ensures Later(s, ApplyBilling(s, c, r).state)
  {
    hide SellingLater, RegistryLater, Map, PurchaseTotals, NextNumber, FirstFault, SumMap, CounterKey, OrdersLater,
        LotsLater, DisputesLater;
    BillingFrame(s, c, r);
    assert Unused(s, c.ids(0));
    LaterSame(s);
  }

  lemma WriteOffIsLater(s: State, c: Call, branch: Id, lotId: Id, quantity: int)
    requires quantity > 0 && WriteOff(s, c, branch, lotId, quantity).verdict == Accepted
    ensures Later(s, WriteOff(s, c, branch, lotId, quantity).state)
  {
    hide RegistryLater, SellingLater, OrdersLater, DisputesLater, CountersLater, StoredRemaining, Stock;
    LaterSame(s);
  }

  lemma StockIsLater(s: State, c: Call, r: Request)
    requires FreshIds(s, c.ids) && IsStock(r) && ValidPayload(r) && ApplyStock(s, c, r).verdict == Accepted
    ensures Later(s, ApplyStock(s, c, r).state)
  {
    hide SellingLater, RegistryLater, BuyingLater, CountersLater, AfterTransfers, AfterCounts, CountResults, WriteOff;
    assert Unused(s, c.ids(0));
    LaterSame(s);
    match r
    case CreateTransfer(source, destination, lines) =>
      TransfersConserve(s.ledger, source, destination, lines, PurchaseReceipt, "", "");
    case CountStock(branch, reason, lines) =>
      CountsPostVariancesOnly(s.ledger, branch, lines, PurchaseReceipt, "", "");
    case WriteOffLot(branch, lot, quantity) => WriteOffIsLater(s, c, branch, lot, quantity);
  }

  lemma SettleIsLater(sessions: map<Id, CashSession>, sessionId: Option<Id>, method_: string, amount: int)
    ensures DrawersLater(sessions, SettleSession(sessions, sessionId, method_, amount).1)
  {
  }

  lemma VisitIsLater(customers: map<Id, Customer>, customerId: Option<Id>, saleId: Id, total: int, gstin: Option<string>)
    ensures CustomersLater(customers, CountVisit(customers, customerId, saleId, total, gstin))
  {
  }

  lemma SaleIsLater(s: State, c: Call, branch: Id, customerId: Option<Id>, gstin: Option<string>, lines: seq<Line>,
      payment: int, method_: string, sessionId: Option<Id>)
    requires FreshIds(s, c.ids)
    ensures Later(s, Sell(s, c, branch, customerId, gstin, lines, payment, method_, sessionId).state)
  {
    hide BuyingLater, RegistryLater, DrawersLater, CustomersLater, RefundsLater, Map, FirstFault, NextNumber,
        SaleInvoiceOf, CounterKey, SettleSession, CountVisit, SaleOf;
    assert Unused(s, c.ids(0)) && Unused(s, c.ids(1));
    LaterSame(s);
    if Sell(s, c, branch, customerId, gstin, lines, payment, method_, sessionId).state.selling != s.selling {
      var total := SaleInvoiceOf(s.counters, CatalogueOf(s), s.registry.branches, c, branch, gstin, lines).grandTotal;
      SettleIsLater(s.selling.cashSessions, sessionId, method_, total);
      VisitIsLater(s.selling.customers, customerId, c.ids(1), total, gstin);
    }
  }

  lemma SwapIsLater(s: State, c: Call, branch: Id, saleId: Id, lines: seq<Line>, replacements: seq<Line>, method_: string,
                    sessionId: Option<Id>)
    requires FreshIds(s, c.ids)
    ensures Later(s, Swap(s, c, branch, saleId, lines, replacements, method_, sessionId).state)
  {
    hide BuyingLater, RegistryLater, DrawersLater, CustomersLater, RefundsLater, CountersLater, Map, FirstFault,
        ExchangeOf, SettleSession;
    assert Unused(s, c.ids(0));
    LaterSame(s);
    if saleId in s.selling.sales {
      var x := ExchangeOf(s, c, branch, saleId, s.selling.sales[saleId], lines, replacements, method_, sessionId);
      SettleIsLater(s.selling.cashSessions, sessionId, method_, Signed(x.direction, x.balance));
    }
  }

  /** Sales and exchanges lose nothing whatever their outcome: a crash leaves more in memory, never less. */
  lemma SellingIsLater(s: State, c: Call, r: Request)
    requires FreshIds(s, c.ids) && IsSelling(r)
    ensures Later(s, ApplySelling(s, c, r).state)
  {
    hide Sell, Swap, Later, FreshIds;
    match r
    case CreateSale(branch, customer, gstin, lines, payment, method_, session) =>
      SaleIsLater(s, c, branch, customer, gstin, lines, payment, method_, session);
    case ExchangeSale(branch, sale, lines, replacements, method_, session) =>
      SwapIsLater(s, c, branch, sale, lines, replacements, method_, session);
  }

  lemma RefundIsLater(s: State, c: Call, r: Request)
    requires FreshIds(s, c.ids) && IsRefund(r) && ApplyRefund(s, c, r).verdict == Accepted
    ensures Later(s, ApplyRefund(s, c, r).state)
  {
    hide BuyingLater, RegistryLater, DrawersLater, CustomersLater, Map, FirstFault, NextNumber, CustomerCredit, CounterKey;
    RefundFrame(s, c, r);
    assert Unused(s, c.ids(0)) && Unused(s, c.ids(1));
    LaterSame(s);
  }

  /** No accepted request loses or rewrites what is recorded. */
  lemma AcceptedIsLater(s: State, c: Call, r: Request)
    requires FreshIds(s, c.ids) && ValidPayload(r) && Apply(s, c, r).verdict == Accepted
    ensures Later(s, Apply(s, c, r).state)
  {
    hide Later, FreshIds, ValidPayload, ApplyRegistry, ApplyParty, ApplyBranch, ApplyOrdering, ApplyBilling, ApplyDispute,
         ApplyStock, ApplySelling, ApplyRefund;
    if IsRegistry(r) {
      RegistryIsLater(s, c, r);
    } else if IsParty(r) {
      PartyIsLater(s, c, r);
    } else if IsBranch(r) {
      BranchIsLater(s, c, r);
    } else if IsOrdering(r) {
      OrderingIsLater(s, c, r);
    } else if IsBilling(r) {
      BillingIsLater(s, c, r);
    } else if IsDispute(r) {
      DisputeIsLater(s, c, r);
    } else if IsStock(r) {
      StockIsLater(s, c, r);
    } else if IsSelling(r) {
      SellingIsLater(s, c, r);
    } else {
      RefundIsLater(s, c, r);
    }
  }
}
