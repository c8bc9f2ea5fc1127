/** One invariant for the whole state, which every accepted request keeps, and the customer totals beside it. */
module Consistency {
  import opened Folds
  import opened Inventory
  import opened Entities
  import opened Taxes
  import opened Numbering
  import opened StateModel
  import opened BatchTracking
  import opened Handlers
  import opened Frames
  import opened LedgerInvariant
  import opened TillInvariants
  import opened ChainInvariant
  import opened SettlementInvariant
  import opened NumberInvariant

  predicate SoldKnown(products: map<Id, Product>, sale: Sale)
  {
    forall i :: 0 <= i < |sale.lines| ==> sale.lines[i].productId in products
  }

  /** Stored sales and purchase invoices name stored products and suppliers. */
  ghost predicate RefsKnown(products: map<Id, Product>, suppliers: map<Id, Supplier>, sales: map<Id, Sale>, bills: Bills)
  {
    && (forall k :: k in sales ==> SoldKnown(products, sales[k]))
    && (forall k :: k in bills ==> AllKnown(products, bills[k].lines) && bills[k].supplierId in suppliers)
  }

  ghost predicate Consistent(s: State)
  {
    && KeysOwn(s.registry) && BranchIds(s.registry.branches)
    && RefsKnown(s.registry.products, s.registry.suppliers, s.selling.sales, s.purchasing.purchaseInvoices)
    && TillFaithful(s.selling)
    && LedgerReconciles(s.ledger, s.purchasing) && ChainOk(s.purchasing) && CostsOk(s.purchasing)
        && SettlesBills(s.purchasing)
    && Numbered(s.purchasing, s.selling, s.counters)
  }

  // ---- registry, catalogue, customers, drawers ----

  lemma RegistryKeeps(s: State, c: Call, r: Request)
    requires Consistent(s) && FreshIds(s, c.ids) && IsRegistry(r)
    ensures Consistent(ApplyRegistry(s, c, r).state)
  {
    hide KeysOwn, RefsKnown, TillFaithful, LedgerReconciles, ChainOk, CostsOk, SettlesBills, Numbered, NoColon;
    RegistryFrame(s, c, r);
    var reg, reg' := s.registry, ApplyRegistry(s, c, r).state.registry;
    assert Unused(s, c.ids(0));
    assert reg' == reg.(tenants := reg'.tenants, branches := reg'.branches);
    KeysOwnStays(reg, reg');
  }

  lemma KeysOwnStays(r: Registry, r': Registry)
    requires KeysOwn(r) && r'.catalogOverrides == r.catalogOverrides && r'.reorderRules == r.reorderRules
    ensures KeysOwn(r')
  {
  }

  lemma RefsGrow(products: map<Id, Product>, suppliers: map<Id, Supplier>, sales: map<Id, Sale>, bills: Bills,
                 products': map<Id, Product>, suppliers': map<Id, Supplier>)
    requires RefsKnown(products, suppliers, sales, bills)
    requires products.Keys <= products'.Keys && suppliers.Keys <= suppliers'.Keys
    ensures RefsKnown(products', suppliers', sales, bills)
  {
  }

  lemma PartyKeeps(s: State, c: Call, r: Request)
    requires Consistent(s) && FreshIds(s, c.ids) && IsParty(r)
    ensures Consistent(ApplyParty(s, c, r).state)
  {
    hide KeysOwn, RefsKnown, TillFaithful, LedgerReconciles, ChainOk, CostsOk, SettlesBills, GapFree, BranchIds;
    PartyFrame(s, c, r);
    var t := ApplyParty(s, c, r).state;
    assert Unused(s, c.ids(0));
    KeysOwnStays(s.registry, t.registry);
    RefsGrow(s.registry.products, s.registry.suppliers, s.selling.sales, s.purchasing.purchaseInvoices,
             t.registry.products, t.registry.suppliers);
    if r.CreateCustomer? {
      NewCustomerKeepsTill(s.selling, c.ids(0), Customer(c.tenantId, r.gstin, 0, 0, None));
    }
  }

  /** What the customer totals depend on. */
  lemma CustomersFollow(sell: Selling, t: Selling)
    requires CustomersFaithful(sell) && t.customers == sell.customers && t.sales == sell.sales
    requires t.invoices == sell.invoices
    ensures CustomersFaithful(t)
  {
    hide SumMap;
    forall id | id in t.customers ensures CustomerOk(t, id) { assert CustomerOk(sell, id); }
  }

  lemma BranchKeeps(s: State, c: Call, r: Request)
    requires Consistent(s) && FreshIds(s, c.ids) && IsBranch(r)
    ensures Consistent(ApplyBranch(s, c, r).state)
  {
    hide RefsKnown, TillFaithful, LedgerReconciles, ChainOk, CostsOk, SettlesBills, GapFree, BranchIds;
    BranchFrame(s, c, r);
    assert Unused(s, c.ids(0));
    match r
    case OpenCashSession(branch, amount) => OpeningKeepsTill(s.selling, c, branch, amount);
    case CloseCashSession(session, closing) => ClosingKeepsTill(s, session, closing);
    case _ =>
  }

  // ---- purchasing ----

  /** The ledger reconciles with receipts, return notes and lots only. */
  lemma LedgerFollows(ledger: Ledger, p: Purchasing, q: Purchasing)
    requires LedgerReconciles(ledger, p)
    requires q.goodsReceipts == p.goodsReceipts && q.supplierReturns == p.supplierReturns && q.batchLots == p.batchLots
    ensures LedgerReconciles(ledger, q)
  {
    hide Sum, SumMap;
    forall i, b ensures Reconciled(ledger, q, i, b) { assert Reconciled(ledger, p, i, b); }
  }

  lemma ChainFollows(p: Purchasing, q: Purchasing)
    requires ChainOk(p) && q.purchaseOrders == p.purchaseOrders && q.goodsReceipts == p.goodsReceipts
    requires q.purchaseInvoices == p.purchaseInvoices && q.batchLots == p.batchLots
    ensures ChainOk(q)
  {
    hide ReceiptsOk, BillsOk, LotsOk;
  }

  lemma DisputeKeeps(s: State, c: Call, r: Request)
    requires Consistent(s) && IsDispute(r)
    ensures Consistent(ApplyDispute(s, c, r).state)
  {
    hide KeysOwn, RefsKnown, TillFaithful, LedgerReconciles, ChainOk, GapFree, BranchIds;
    DisputeFrame(s, c, r);
    var p := ApplyDispute(s, c, r).state.purchasing;
    LedgerFollows(s.ledger, s.purchasing, p);
    ChainFollows(s.purchasing, p);
  }

  lemma OrdersKeep(s: State, orders: Orders)
    requires Consistent(s) && ChainOk(s.purchasing.(purchaseOrders := orders))
    requires forall k :: k in orders ==> PositiveCosts(orders[k].lines)
    ensures Consistent(s.(purchasing := s.purchasing.(purchaseOrders := orders)))
  {
    hide KeysOwn, RefsKnown, TillFaithful, LedgerReconciles, ChainOk, GapFree, BranchIds, PositiveCosts;
    LedgerFollows(s.ledger, s.purchasing, s.purchasing.(purchaseOrders := orders));
  }

  lemma PlaceKeeps(s: State, c: Call, branch: Id, supplier: Id, lines: seq<OrderLine>)
    requires Consistent(s) && FreshIds(s, c.ids) && PositiveCosts(lines)
    ensures Consistent(PlaceOrder(s, c, branch, supplier, lines).state)
  {
    hide KeysOwn, RefsKnown, TillFaithful, LedgerReconciles, ChainOk, Numbered, SettlesBills, BranchIds, PositiveCosts;
    assert Unused(s, c.ids(0));
    PlaceKeepsChain(s, c, branch, supplier, lines);
    var orders := PlaceOrder(s, c, branch, supplier, lines).state.purchasing.purchaseOrders;
    OrdersKeep(s, orders);
  }

  lemma SubmitKeeps(s: State, c: Call, branch: Id, orderId: Id)
    requires Consistent(s) && Submit(s, c, branch, orderId).verdict == Accepted
    ensures Consistent(Submit(s, c, branch, orderId).state)
  {
    hide KeysOwn, RefsKnown, TillFaithful, LedgerReconciles, ChainOk, Numbered, SettlesBills, BranchIds, PositiveCosts;
    SubmitKeepsChain(s, c, branch, orderId);
    OrdersKeep(s, Submit(s, c, branch, orderId).state.purchasing.purchaseOrders);
  }

  lemma DecideKeeps(s: State, c: Call, branch: Id, orderId: Id, approve: bool)
    requires Consistent(s) && Decide(s, c, branch, orderId, approve).verdict == Accepted
    ensures Consistent(Decide(s, c, branch, orderId, approve).state)
  {
    hide KeysOwn, RefsKnown, TillFaithful, LedgerReconciles, ChainOk, Numbered, SettlesBills, BranchIds, PositiveCosts;
    DecideKeepsChain(s, c, branch, orderId, approve);
    OrdersKeep(s, Decide(s, c, branch, orderId, approve).state.purchasing.purchaseOrders);
  }

  lemma ReceiveKeeps(s: State, c: Call, branch: Id, orderId: Id)
    requires Consistent(s) && FreshIds(s, c.ids) && Receive(s, c, branch, orderId).verdict == Accepted
    ensures Consistent(Receive(s, c, branch, orderId).state)
  {
    hide KeysOwn, RefsKnown, TillFaithful, LedgerReconciles, ChainOk, GapFree, BranchIds, Map, PositiveCosts;
    assert Unused(s, c.ids(0));
    var g := Receive(s, c, branch, orderId).state.purchasing.goodsReceipts[c.ids(0)];
    ReceiveReconciles(s.ledger, s.purchasing, c.ids(0), g);
    ReceiveKeepsChain(s, c, branch, orderId);
  }

  lemma IntakeKeeps(s: State, c: Call, branch: Id, receiptId: Id, inputs: seq<LotInput>)
    requires Consistent(s) && FreshIds(s, c.ids) && Intake(s, c, branch, receiptId, inputs).verdict == Accepted
    requires forall i :: 0 <= i < |inputs| ==> inputs[i].quantity > 0
    ensures Consistent(Intake(s, c, branch, receiptId, inputs).state)
  {
    hide KeysOwn, RefsKnown, TillFaithful, LedgerReconciles, ChainOk, GapFree, BranchIds, PositiveCosts, StoreLots,
        LotsMatch;
    assert forall n: nat :: Unused(s, c.ids(n));
    IntakeReconciles(s.ledger, s.purchasing, c, s.purchasing.goodsReceipts[receiptId], branch, inputs);
    IntakeKeepsChain(s, c, branch, receiptId, inputs);
  }

  lemma OrderingKeeps(s: State, c: Call, r: Request)
    requires Consistent(s) && FreshIds(s, c.ids) && IsOrdering(r) && ValidPayload(r)
    requires ApplyOrdering(s, c, r).verdict == Accepted
    ensures Consistent(ApplyOrdering(s, c, r).state)
  {
    hide PlaceOrder, Submit, Decide, Receive, Intake, Consistent, FreshIds;
    match r
    case CreateOrder(branch, supplier, lines) => PlaceKeeps(s, c, branch, supplier, lines);
    case SubmitOrder(branch, order) => SubmitKeeps(s, c, branch, order);
    case DecideOrder(branch, order, approve) => DecideKeeps(s, c, branch, order, approve);
    case CreateReceipt(branch, order) => ReceiveKeeps(s, c, branch, order);
    case RecordLots(branch, receipt, lots) => IntakeKeeps(s, c, branch, receipt, lots);
  }

  lemma InvoiceKeeps(s: State, c: Call, branch: Id, receiptId: Id)
    requires Consistent(s) && FreshIds(s, c.ids) && InvoiceReceipt(s, c, branch, receiptId).verdict == Accepted
    ensures Consistent(InvoiceReceipt(s, c, branch, receiptId).state)
  {
    hide KeysOwn, TillFaithful, LedgerReconciles, ChainOk, Numbered, BranchIds, PositiveCosts, PurchaseTotals, Map,
        NextNumber, Advance, SoldKnown;
    assert Unused(s, c.ids(0));
    var p := InvoiceReceipt(s, c, branch, receiptId).state.purchasing;
    LedgerFollows(s.ledger, s.purchasing, p);
    InvoiceKeepsChain(s, c, branch, receiptId);
    InvoiceKeepsNumbers(s, c, branch, receiptId);
  }

  lemma SendBackKeeps(s: State, c: Call, branch: Id, bill: Id, lines: seq<Line>)
    requires Consistent(s) && FreshIds(s, c.ids) && SendBack(s, c, branch, bill, lines).verdict == Accepted
    ensures Consistent(SendBack(s, c, branch, bill, lines).state)
  {
    hide KeysOwn, RefsKnown, TillFaithful, LedgerReconciles, ChainOk, Numbered, BranchIds, PositiveCosts,
        PurchaseTotals, Map, NextNumber, Advance, FirstFault, SupplierReturnFault;
    assert Unused(s, c.ids(0));
    var p := SendBack(s, c, branch, bill, lines).state.purchasing;
    var note := p.supplierReturns[c.ids(0)];
    assert lines[..|lines|] == lines;
    SendBackReconciles(s.ledger, s.purchasing, c.ids(0), note);
    ChainFollows(s.purchasing, p);
    SendBackKeepsNumbers(s, c, branch, bill, lines);
  }

  lemma PayKeeps(s: State, c: Call, branch: Id, bill: Id, amount: int, method_: string)
    requires Consistent(s) && FreshIds(s, c.ids) && Pay(s, c, branch, bill, amount, method_).verdict == Accepted
    ensures Consistent(Pay(s, c, branch, bill, amount, method_).state)
  {
    hide KeysOwn, RefsKnown, TillFaithful, LedgerReconciles, ChainOk, Numbered, BranchIds, PositiveCosts, SumMap,
        NextNumber, Advance;
    assert Unused(s, c.ids(0));
    var p := Pay(s, c, branch, bill, amount, method_).state.purchasing;
    LedgerFollows(s.ledger, s.purchasing, p);
    ChainFollows(s.purchasing, p);
    PayKeepsNumbers(s, c, branch, bill, amount, method_);
  }

  lemma BillingKeeps(s: State, c: Call, r: Request)
    requires Consistent(s) && FreshIds(s, c.ids) && IsBilling(r) && ApplyBilling(s, c, r).verdict == Accepted
    ensures Consistent(ApplyBilling(s, c, r).state)
  {
    hide InvoiceReceipt, SendBack, Pay, Consistent, FreshIds;
    match r
    case CreatePurchaseInvoice(branch, receipt) => InvoiceKeeps(s, c, branch, receipt);
    case ReturnToSupplier(branch, invoice, lines) => SendBackKeeps(s, c, branch, invoice, lines);
    case PaySupplier(branch, invoice, amount, method_) => PayKeeps(s, c, branch, invoice, amount, method_);
  }

  // ---- stock ----

  lemma WriteOffKeeps(s: State, c: Call, branch: Id, lotId: Id, quantity: int)
    requires Consistent(s) && quantity > 0 && WriteOff(s, c, branch, lotId, quantity).verdict == Accepted
    ensures Consistent(WriteOff(s, c, branch, lotId, quantity).state)
  {
    hide KeysOwn, RefsKnown, TillFaithful, LedgerReconciles, ChainOk, GapFree, BranchIds, PositiveCosts,
        StoredRemaining, Stock;
    WriteOffReconciles(s.ledger, s.purchasing, lotId, quantity);
    WriteOffKeepsChain(s, c, branch, lotId, quantity);
  }

  lemma StockKeeps(s: State, c: Call, r: Request)
    requires Consistent(s) && IsStock(r) && ValidPayload(r) && ApplyStock(s, c, r).verdict == Accepted
    ensures Consistent(ApplyStock(s, c, r).state)
  {
    hide KeysOwn, RefsKnown, TillFaithful, LedgerReconciles, ChainOk, GapFree, BranchIds, CostsOk, SettlesBills, WriteOff,
         AfterTransfers, AfterCounts, CountResults;
    match r
    case CreateTransfer(source, destination, lines) =>
        TransfersReconcile(s.ledger, s.purchasing, source, destination, lines);
    case CountStock(branch, reason, lines) => CountsReconcile(s.ledger, s.purchasing, branch, lines);
    case WriteOffLot(branch, lot, quantity) => WriteOffKeeps(s, c, branch, lot, quantity);
  }

  // ---- selling ----

  lemma {:induction false} PassedLinesAreKnown(cat: Catalogue, branch: Id, lines: seq<Line>)
    requires FirstFault(lines, PricingFault(cat, branch)) == |lines|
    ensures forall i :: 0 <= i < |lines| ==> Map(lines, SoldLine(cat, branch))[i].productId in cat.products
  {
    forall i | 0 <= i < |lines| ensures lines[i].productId in cat.products {
      assert PricingFault(cat, branch)(lines[i]) == Accepted;
    }
  }

  /** Even a sale that crashes half-way keeps the invariant. */
  lemma SellKeeps(s: State, c: Call, branch: Id, customerId: Option<Id>, gstin: Option<string>, lines: seq<Line>,
      payment: int, method_: string, sessionId: Option<Id>)
    requires Consistent(s) && FreshIds(s, c.ids)
    requires Sell(s, c, branch, customerId, gstin, lines, payment, method_, sessionId).verdict != Refused
    ensures Consistent(Sell(s, c, branch, customerId, gstin, lines, payment, method_, sessionId).state)
  {
    hide KeysOwn, TillFaithful, LedgerReconciles, ChainOk, CostsOk, SettlesBills, Numbered, BranchIds, AllKnown,
         SettleSession, CountVisit, Map, FirstFault, SaleInvoiceOf, Advance, SaleOf;
    assert Unused(s, c.ids(0)) && Unused(s, c.ids(1));
    var k := FirstFault(lines, PricingFault(CatalogueOf(s), branch));
    SellingReconciles(s.ledger, s.purchasing, lines[..k], branch, SaleIssue, -1);
    SellKeepsTill(s, c, branch, customerId, gstin, lines, payment, method_, sessionId);
    SellKeepsNumbers(s, c, branch, customerId, gstin, lines, payment, method_, sessionId);
    if k == |lines| { SoldIsInCatalogue(s, c, branch, customerId, lines, payment, method_, sessionId); }
  }

  lemma {:induction false} SoldIsInCatalogue(s: State, c: Call, branch: Id, customerId: Option<Id>,
      lines: seq<Line>, payment: int, method_: string, sessionId: Option<Id>)
    requires FirstFault(lines, PricingFault(CatalogueOf(s), branch)) == |lines|
    ensures SoldKnown(s.registry.products,
                      SaleOf(CatalogueOf(s), c, branch, customerId, lines, payment, method_, sessionId))
  {
    hide Map, FirstFault;
    PassedLinesAreKnown(CatalogueOf(s), branch, lines);
    MapLength(lines, SoldLine(CatalogueOf(s), branch));
  }

  lemma MapLength<T, U>(xs: seq<T>, f: T -> U)
    ensures |Map(xs, f)| == |xs|
  {
  }

  /** So does an exchange: it stores nothing before it succeeds. */
  lemma SwapKeeps(s: State, c: Call, branch: Id, saleId: Id, lines: seq<Line>, replacements: seq<Line>, method_: string,
                  sessionId: Option<Id>)
    requires Consistent(s) && FreshIds(s, c.ids)
    ensures Consistent(Swap(s, c, branch, saleId, lines, replacements, method_, sessionId).state)
  {
    hide KeysOwn, RefsKnown, TillFaithful, LedgerReconciles, ChainOk, CostsOk, SettlesBills, GapFree, BranchIds,
        SettleSession, Map, FirstFault, ExchangeOf;
    assert Unused(s, c.ids(0));
    if saleId in s.selling.sales {
      var k := FirstFault(lines, ExchangeFault(s.registry.products, s.selling.sales[saleId]));
      var j := FirstFault(replacements, PricingFault(CatalogueOf(s), branch));
      SellingReconciles(s.ledger, s.purchasing, lines[..k], branch, CustomerReturn, 1);
      SellingReconciles(s.ledger + Map(lines[..k], Post(branch, CustomerReturn, 1)), s.purchasing, replacements[..j],
          branch, SaleIssue, -1);
    }
    SwapKeepsTill(s, c, branch, saleId, lines, replacements, method_, sessionId);
  }

  lemma SellingKeeps(s: State, c: Call, r: Request)
    requires Consistent(s) && FreshIds(s, c.ids) && IsSelling(r) && ApplySelling(s, c, r).verdict == Accepted
    ensures Consistent(ApplySelling(s, c, r).state)
  {
    hide Sell, Swap, Consistent, FreshIds;
    match r
    case CreateSale(branch, customer, gstin, lines, payment, method_, session) =>
      SellKeeps(s, c, branch, customer, gstin, lines, payment, method_, session);
    case ExchangeSale(branch, sale, lines, replacements, method_, session) =>
      SwapKeeps(s, c, branch, sale, lines, replacements, method_, session);
  }

  lemma TakeBackKeeps(s: State, c: Call, branch: Id, saleId: Id, lines: seq<Line>, refund: int, mayApprove: bool)
    requires Consistent(s) && FreshIds(s, c.ids)
    requires TakeBack(s, c, branch, saleId, lines, refund, mayApprove).verdict == Accepted
    ensures Consistent(TakeBack(s, c, branch, saleId, lines, refund, mayApprove).state)
  {
    hide KeysOwn, RefsKnown, TillFaithful, LedgerReconciles, ChainOk, CostsOk, SettlesBills, Numbered, BranchIds,
         Map, FirstFault, CustomerCredit, Advance;
    assert Unused(s, c.ids(1));
    assert lines[..|lines|] == lines;
    SellingReconciles(s.ledger, s.purchasing, lines, branch, CustomerReturn, 1);
    TakeBackKeepsNumbers(s, c, branch, saleId, lines, refund, mayApprove);
    TakeBackKeepsTill(s, c, branch, saleId, lines, refund, mayApprove);
  }

  lemma RefundKeeps(s: State, c: Call, r: Request)
    requires Consistent(s) && FreshIds(s, c.ids) && IsRefund(r) && ApplyRefund(s, c, r).verdict == Accepted
    ensures Consistent(ApplyRefund(s, c, r).state)
  {
    hide TakeBack, TillFaithful, KeysOwn, RefsKnown, LedgerReconciles, ChainOk, CostsOk, SettlesBills, GapFree,
        BranchIds, FreshIds;
    match r
    case ReturnSale(branch, sale, lines, refund, mayApprove) =>
        TakeBackKeeps(s, c, branch, sale, lines, refund, mayApprove);
    case ApproveRefund(saleReturn) => ApproveKeepsTill(s, saleReturn);
  }

  lemma PartyKeepsCustomers(s: State, c: Call, r: Request)
    requires SaleRefs(s.selling) && CustomersFaithful(s.selling) && FreshIds(s, c.ids) && IsParty(r)
    ensures CustomersFaithful(ApplyParty(s, c, r).state.selling)
  {
    hide CustomersFaithful, SaleRefs;
    assert Unused(s, c.ids(0));
    if r.CreateCustomer? {
      NewCustomerIsFaithful(s.selling, c.ids(0), Customer(c.tenantId, r.gstin, 0, 0, None));
    }
  }

  lemma SaleKeepsCustomers(s: State, c: Call, r: Request)
    requires SaleRefs(s.selling) && CustomersFaithful(s.selling) && FreshIds(s, c.ids) && r.CreateSale?
    requires ApplySelling(s, c, r).verdict == Accepted
    ensures CustomersFaithful(ApplySelling(s, c, r).state.selling)
  {
    hide CustomersFaithful, SaleRefs, Sell;
    assert Unused(s, c.ids(0)) && Unused(s, c.ids(1));
    SellAndCustomers(s, c, r.branchId, r.customerId, r.customerGstin, r.lines, r.paymentAmount, r.paymentMethod,
                     r.cashSessionId);
  }

  lemma SwapLeavesTotals(s: State, c: Call, r: Request)
    requires r.ExchangeSale?
    ensures var t := ApplySelling(s, c, r).state.selling;
            t.customers == s.selling.customers && t.sales == s.selling.sales && t.invoices == s.selling.invoices
  {
    hide Swap, Sell;
  }

  /** Customers, sales and invoices are touched by new customers and by sales only. */
  lemma OthersLeaveTotals(s: State, c: Call, r: Request)
    requires !r.CreateSale? && !IsParty(r)
    ensures var t := Apply(s, c, r).state.selling;
            t.customers == s.selling.customers && t.sales == s.selling.sales && t.invoices == s.selling.invoices
  {
    hide ApplyRegistry, ApplyParty, ApplyBranch, ApplyOrdering, ApplyBilling, ApplyDispute, ApplyStock, ApplySelling,
        ApplyRefund;
    if IsRegistry(r) { RegistryFrame(s, c, r); }
    else if IsBranch(r) { BranchFrame(s, c, r); }
    else if IsOrdering(r) { OrderingFrame(s, c, r); }
    else if IsBilling(r) { BillingFrame(s, c, r); }
    else if IsDispute(r) { DisputeFrame(s, c, r); }
    else if IsStock(r) { StockFrame(s, c, r); }
    else if IsSelling(r) { SwapLeavesTotals(s, c, r); }
    else { RefundFrame(s, c, r); }
  }

  /** Whatever an accepted handler leaves behind is consistent again. */
  lemma AcceptedKeepsConsistent(s: State, c: Call, r: Request)
    requires Consistent(s) && FreshIds(s, c.ids) && ValidPayload(r) && Apply(s, c, r).verdict == Accepted
    ensures Consistent(Apply(s, c, r).state)
  {
    hide Consistent, FreshIds, ValidPayload, ApplyRegistry, ApplyParty, ApplyBranch, ApplyOrdering, ApplyBilling,
        ApplyDispute, ApplyStock, ApplySelling, ApplyRefund;
    if IsRegistry(r) {
      RegistryKeeps(s, c, r);
    } else if IsParty(r) {
      PartyKeeps(s, c, r);
    } else if IsBranch(r) {
      BranchKeeps(s, c, r);
    } else if IsOrdering(r) {
      OrderingKeeps(s, c, r);
    } else if IsBilling(r) {
      BillingKeeps(s, c, r);
    } else if IsDispute(r) {
      DisputeKeeps(s, c, r);
    } else if IsStock(r) {
      StockKeeps(s, c, r);
    } else if IsSelling(r) {
      SellingKeeps(s, c, r);
    } else {
      RefundKeeps(s, c, r);
    }
  }
}
