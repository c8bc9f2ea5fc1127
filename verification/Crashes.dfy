/**
 * Uncaught lookup errors. The middleware neither saves nor rolls back when a handler raises one, so a crash after the
 * first write strands partial work in memory. In a consistent state only sales and exchanges can do that.
 */
module Crashes {
  import opened Folds
  import opened Inventory
  import opened Entities
  import opened Taxes
  import opened Numbering
  import opened StateModel
  import opened BatchTracking
  import opened Handlers
  import opened LedgerInvariant
  import opened TillInvariants
  import opened ChainInvariant
  import opened SettlementInvariant
  import opened NumberInvariant
  import opened Consistency
  import opened Frames
  import opened History
  import opened Middleware

  predicate Stranded(s: State, o: Outcome) { o.verdict == Crashed && o.state != s }

  predicate Missing(sessions: map<Id, CashSession>, sessionId: Option<Id>)
  {
    sessionId.Some? && sessionId.value !in sessions
  }

  /** After posting at least one line, a sale meets a product or, when all lines passed, a session that does not exist. */
  predicate SaleStrands(s: State, branch: Id, customerId: Option<Id>, lines: seq<Line>, sessionId: Option<Id>)
  {
    var k := FirstFault(lines, PricingFault(CatalogueOf(s), branch));
    && branch in s.registry.branches && (customerId.Some? ==> customerId.value in s.selling.customers)
    && k > 0
    && if k < |lines| then lines[k].productId !in s.registry.products else Missing(s.selling.cashSessions, sessionId)
  }

  /** All returned lines were sold, at least one line was posted, and a replacement or the session does not exist. */
  predicate ExchangeStrands(s: State, branch: Id, saleId: Id, lines: seq<Line>, replacements: seq<Line>,
      sessionId: Option<Id>)
  {
    var j := FirstFault(replacements, PricingFault(CatalogueOf(s), branch));
    && saleId in s.selling.sales
    && (forall i :: 0 <= i < |lines| ==> FindSaleLine(s.selling.sales[saleId].lines, lines[i].productId).Some?)
    && |lines| + j > 0
    && if j < |replacements| then replacements[j].productId !in s.registry.products
        else Missing(s.selling.cashSessions, sessionId)
  }

  /** The whole family of requests that crash half-way; all of it can be checked before the call. */
  predicate StrandsWork(s: State, c: Call, r: Request)
  {
    && !Blocked(s, c, r) && ValidPayload(r)
    && match r
       case CreateSale(branch, customer, _, lines, _, _, session) => SaleStrands(s, branch, customer, lines, session)
       case ExchangeSale(branch, sale, lines, replacements, _, session) =>
         ExchangeStrands(s, branch, sale, lines, replacements, session)
       case _ => false
  }

  lemma PostingShows(ledger: Ledger, lines: seq<Line>, k: nat, branch: Id, kind: EntryKind, sign: int)
    requires k <= |lines|
    ensures ledger + Map(lines[..k], Post(branch, kind, sign)) == ledger <==> k == 0
  {
    assert |Map(lines[..k], Post(branch, kind, sign))| == k;
    if ledger + Map(lines[..k], Post(branch, kind, sign)) == ledger {
      assert |ledger + Map(lines[..k], Post(branch, kind, sign))| == |ledger| + k;
    }
  }

  lemma SaleCrash(s: State, c: Call, branch: Id, customerId: Option<Id>, gstin: Option<string>, lines: seq<Line>,
      payment: int, method_: string, sessionId: Option<Id>)
    ensures Stranded(s, Sell(s, c, branch, customerId, gstin, lines, payment, method_, sessionId))
       <==> SaleStrands(s, branch, customerId, lines, sessionId)
  {
    hide Map, FirstFault, SaleInvoiceOf, SaleOf, Advance, CountVisit;
    var k := FirstFault(lines, PricingFault(CatalogueOf(s), branch));
    PostingShows(s.ledger, lines, k, branch, SaleIssue, -1);
  }

  lemma {:induction false} FoundSaleLine(lines: seq<SaleLine>, item: Id)
    ensures var f := FindSaleLine(lines, item);
            && (f.Some? ==> exists i :: 0 <= i < |lines| && lines[i].productId == item)
            && (f.None? ==> forall i :: 0 <= i < |lines| ==> lines[i].productId != item)
  {
    if |lines| > 0 { FoundSaleLine(lines[1..], item); }
  }

  /** In a consistent state a sold product still exists, so the return side of an exchange is only ever refused. */
  lemma {:induction false} SoldIsKnown(s: State, saleId: Id, item: Id)
    requires Consistent(s) && saleId in s.selling.sales
    ensures FindSaleLine(s.selling.sales[saleId].lines, item).Some? ==> item in s.registry.products
  {
    hide KeysOwn, BranchIds, TillFaithful, LedgerReconciles, ChainOk, CostsOk, SettlesBills, Numbered;
    FoundSaleLine(s.selling.sales[saleId].lines, item);
    assert SoldKnown(s.registry.products, s.selling.sales[saleId]);
  }

  lemma ExchangeCrash(s: State, c: Call, branch: Id, saleId: Id, lines: seq<Line>, replacements: seq<Line>, method_: string,
                      sessionId: Option<Id>)
    requires Consistent(s)
    ensures Stranded(s, Swap(s, c, branch, saleId, lines, replacements, method_, sessionId))
       <==> ExchangeStrands(s, branch, saleId, lines, replacements, sessionId)
  {
    hide Map, FirstFault, ExchangeOf, FindSaleLine, Consistent;
    if saleId in s.selling.sales {
      var sale := s.selling.sales[saleId];
      var k := FirstFault(lines, ExchangeFault(s.registry.products, sale));
      var j := FirstFault(replacements, PricingFault(CatalogueOf(s), branch));
      forall i | 0 <= i < |lines|
        ensures ExchangeFault(s.registry.products, sale)(lines[i])
             == if FindSaleLine(sale.lines, lines[i].productId).Some? then Accepted else Refused
      {
        SoldIsKnown(s, saleId, lines[i].productId);
      }
      var back := s.ledger + Map(lines[..k], Post(branch, CustomerReturn, 1));
      PostingShows(s.ledger, lines, k, branch, CustomerReturn, 1);
      TwoPostings(s.ledger, lines[..k], replacements[..j], branch);
    }
  }

  lemma TwoPostings(ledger: Ledger, xs: seq<Line>, ys: seq<Line>, branch: Id)
    ensures ledger + Map(xs, Post(branch, CustomerReturn, 1)) + Map(ys, Post(branch, SaleIssue, -1)) == ledger
       <==> |xs| + |ys| == 0
  {
    var both := ledger + Map(xs, Post(branch, CustomerReturn, 1)) + Map(ys, Post(branch, SaleIssue, -1));
    assert |both| == |ledger| + |xs| + |ys|;
  }

  lemma TakeBackNeverStrands(s: State, c: Call, branch: Id, saleId: Id, lines: seq<Line>, refund: int, mayApprove: bool)
    requires Consistent(s)
    ensures !Stranded(s, TakeBack(s, c, branch, saleId, lines, refund, mayApprove))
  {
    hide Map, FirstFault, CustomerCredit, FindSaleLine, Consistent, Advance;
    if saleId in s.selling.sales && |lines| > 0 {
      SoldIsKnown(s, saleId, lines[0].productId);
      assert ReturnFault(s.selling.sales[saleId])(lines[0])
          == if FindSaleLine(s.selling.sales[saleId].lines, lines[0].productId).None? then Refused else Accepted;
    }
    PostingShows(s.ledger, lines, 0, branch, CustomerReturn, 1);
  }

  lemma SendBackNeverStrands(s: State, c: Call, branch: Id, bill: Id, lines: seq<Line>)
    requires Consistent(s)
    ensures !Stranded(s, SendBack(s, c, branch, bill, lines))
  {
    hide KeysOwn, BranchIds, TillFaithful, LedgerReconciles, ChainOk, CostsOk, SettlesBills, Numbered, Map, FirstFault,
         FindLine, ReturnNoteOf, SumMap, Advance;
    if bill in s.purchasing.purchaseInvoices {
      var invoice := s.purchasing.purchaseInvoices[bill];
      forall i | 0 <= i < |lines|
        ensures SupplierReturnFault(invoice, bill, s.purchasing.supplierReturns, s.registry.products)(lines[i]) != Crashed
      {
        FoundLine(invoice.lines, lines[i].productId);
      }
    }
  }

  lemma OthersNeverStrand(s: State, c: Call, r: Request)
    ensures IsRegistry(r) ==> !Stranded(s, ApplyRegistry(s, c, r))
    ensures IsParty(r) ==> !Stranded(s, ApplyParty(s, c, r))
    ensures IsBranch(r) ==> !Stranded(s, ApplyBranch(s, c, r))
    ensures IsDispute(r) ==> !Stranded(s, ApplyDispute(s, c, r))
  {
  }

  lemma StockNeverStrands(s: State, c: Call, r: Request)
    ensures IsStock(r) ==> !Stranded(s, ApplyStock(s, c, r))
    ensures IsOrdering(r) ==> !Stranded(s, ApplyOrdering(s, c, r))
  {
    hide Stock, StoredRemaining, AfterTransfers, AfterCounts, CountResults, StoreLots, LotsMatch, Map;
  }

  lemma BillingNeverStrands(s: State, c: Call, r: Request)
    requires Consistent(s) && IsBilling(r)
    ensures !Stranded(s, ApplyBilling(s, c, r))
  {
    hide Consistent, SendBack, PurchaseTotals, Map, NextNumber, Advance, SumMap;
    if r.ReturnToSupplier? { SendBackNeverStrands(s, c, r.branchId, r.invoiceId, r.lines); }
  }

  lemma ApproveNeverStrands(s: State, saleReturnId: Id)
    requires Consistent(s)
    ensures !Stranded(s, Approve(s, saleReturnId))
  {
    hide KeysOwn, BranchIds, RefsKnown, TillFaithful, LedgerReconciles, ChainOk, CostsOk, SettlesBills, Numbered;
    ApproveKeepsTill(s, saleReturnId);
  }

  lemma RefundNeverStrands(s: State, c: Call, r: Request)
    requires Consistent(s) && IsRefund(r)
    ensures !Stranded(s, ApplyRefund(s, c, r))
  {
    hide Consistent, TakeBack, Approve;
    if r.ReturnSale? { TakeBackNeverStrands(s, c, r.branchId, r.saleId, r.lines, r.refund, r.mayApprove); }
    if r.ApproveRefund? { ApproveNeverStrands(s, r.saleReturnId); }
  }

  lemma SellingStrands(s: State, c: Call, r: Request)
    requires Consistent(s) && IsSelling(r) && ValidPayload(r) && !Blocked(s, c, r)
    ensures Stranded(s, ApplySelling(s, c, r)) <==> StrandsWork(s, c, r)
  {
    hide Consistent, Sell, Swap, Blocked, ValidPayload, SaleStrands, ExchangeStrands, Stranded;
    match r
    case CreateSale(branch, customer, gstin, lines, payment, method_, session) =>
      SaleCrash(s, c, branch, customer, gstin, lines, payment, method_, session);
    case ExchangeSale(branch, sale, lines, replacements, method_, session) =>
      ExchangeCrash(s, c, branch, sale, lines, replacements, method_, session);
  }

  /** A request crashes half-way exactly when it belongs to that family. */
  lemma StrandsExactly(s: State, c: Call, r: Request)
    requires Consistent(s)
    ensures Stranded(s, Serve(s, c, r)) <==> StrandsWork(s, c, r)
  {
    hide Consistent, Blocked, ValidPayload, SaleStrands, ExchangeStrands, ApplyRegistry, ApplyParty, ApplyBranch,
        ApplyOrdering, ApplyBilling, ApplyDispute, ApplyStock, ApplySelling, ApplyRefund;
    OthersNeverStrand(s, c, r);
    StockNeverStrands(s, c, r);
    if IsBilling(r) {
      BillingNeverStrands(s, c, r);
    } else if IsSelling(r) {
      if ValidPayload(r) && !Blocked(s, c, r) { SellingStrands(s, c, r); }
    } else if !IsRegistry(r) && !IsParty(r) && !IsBranch(r) && !IsOrdering(r) && !IsDispute(r) && !IsStock(r) {
      RefundNeverStrands(s, c, r);
    }
  }

  // ---- what a crash leaves behind ----

  /**
   * `m` is `d` plus what crashed requests left behind: ledger entries, and of sales whose lines had all passed the sale,
   * its invoice and its number. Nothing else differs, and nothing differs at all unless the ledger has grown.
   */
  ghost predicate Ahead(d: State, m: State)
  {
    && m == d.(selling := d.selling.(invoices := m.selling.invoices, sales := m.selling.sales), counters := m.counters,
               ledger := m.ledger)
    && Later(d, m) && (|d.ledger| == |m.ledger| ==> d == m)
  }

  lemma AheadSame(s: State)
    ensures Ahead(s, s)
  {
    LaterSame(s);
  }

  lemma AheadTransitive(d: State, m: State, n: State)
    requires Ahead(d, m) && Ahead(m, n)
    ensures Ahead(d, n)
  {
    hide RegistryLater, BuyingLater, SellingLater, CountersLater;
    LaterTransitive(d, m, n);
  }

  lemma SaleLeaves(s: State, c: Call, branch: Id, customerId: Option<Id>, gstin: Option<string>, lines: seq<Line>,
      payment: int, method_: string, sessionId: Option<Id>)
    requires FreshIds(s, c.ids)
    requires Sell(s, c, branch, customerId, gstin, lines, payment, method_, sessionId).verdict == Crashed
    ensures Ahead(s, Sell(s, c, branch, customerId, gstin, lines, payment, method_, sessionId).state)
  {
    hide FreshIds, Later, Map, FirstFault, SaleInvoiceOf, SaleOf, Advance, CountVisit;
    SaleIsLater(s, c, branch, customerId, gstin, lines, payment, method_, sessionId);
    PostingShows(s.ledger, lines, FirstFault(lines, PricingFault(CatalogueOf(s), branch)), branch, SaleIssue, -1);
  }

  lemma ExchangeLeaves(s: State, c: Call, branch: Id, saleId: Id, lines: seq<Line>, replacements: seq<Line>,
      method_: string, sessionId: Option<Id>)
    requires FreshIds(s, c.ids) && Swap(s, c, branch, saleId, lines, replacements, method_, sessionId).verdict == Crashed
    ensures Ahead(s, Swap(s, c, branch, saleId, lines, replacements, method_, sessionId).state)
  {
    hide FreshIds, Later, Map, FirstFault, ExchangeOf, SettleSession;
    SwapIsLater(s, c, branch, saleId, lines, replacements, method_, sessionId);
    var t := Swap(s, c, branch, saleId, lines, replacements, method_, sessionId).state;
    assert t == s.(ledger := t.ledger);
    LedgerGrows(s, t);
  }

  lemma LedgerGrows(s: State, t: State)
    requires Later(s, t)
    ensures |s.ledger| == |t.ledger| ==> s.ledger == t.ledger
  {
  }

  lemma SellingLeaves(s: State, c: Call, r: Request)
    requires Consistent(s) && FreshIds(s, c.ids) && IsSelling(r) && ApplySelling(s, c, r).verdict == Crashed
    ensures Ahead(s, ApplySelling(s, c, r).state) && Consistent(ApplySelling(s, c, r).state)
  {
    hide Consistent, FreshIds, Sell, Swap, Ahead;
    match r
    case CreateSale(branch, customer, gstin, lines, payment, method_, session) =>
      SaleLeaves(s, c, branch, customer, gstin, lines, payment, method_, session);
      SellKeeps(s, c, branch, customer, gstin, lines, payment, method_, session);
    case ExchangeSale(branch, sale, lines, replacements, method_, session) =>
      ExchangeLeaves(s, c, branch, sale, lines, replacements, method_, session);
      SwapKeeps(s, c, branch, sale, lines, replacements, method_, session);
  }

  /** A crash keeps the invariant, and leaves memory ahead of what it was by a few known parts only. */
  lemma CrashLeaves(s: State, c: Call, r: Request)
    requires Consistent(s) && FreshIds(s, c.ids) && Serve(s, c, r).verdict == Crashed
    ensures Ahead(s, Serve(s, c, r).state) && Consistent(Serve(s, c, r).state)
  {
    hide Consistent, FreshIds, Ahead, Blocked, ValidPayload, SaleStrands, ExchangeStrands, ApplyRegistry, ApplyParty,
        ApplyBranch, ApplyOrdering, ApplyBilling, ApplyDispute, ApplyStock, ApplySelling, ApplyRefund;
    StrandsExactly(s, c, r);
    AheadSame(s);
    if IsSelling(r) { SellingLeaves(s, c, r); }
  }

  /** A sale to a known customer that gets past its lines and then meets a session that does not exist. */
  predicate Uncounted(s: State, c: Call, r: Request)
  {
    && StrandsWork(s, c, r) && r.CreateSale? && r.customerId.Some?
    && FirstFault(r.lines, PricingFault(CatalogueOf(s), r.branchId)) == |r.lines|
  }

  lemma SettleCrashes(sessions: map<Id, CashSession>, sessionId: Option<Id>, method_: string, amount: int)
    ensures SettleSession(sessions, sessionId, method_, amount).0 == Crashed <==> Missing(sessions, sessionId)
  {
  }

  lemma {:induction false} CrashStoresSale(s: State, c: Call, branch: Id, customerId: Option<Id>,
      gstin: Option<string>, lines: seq<Line>, payment: int, method_: string, sessionId: Option<Id>)
    requires c.ids(1) !in s.selling.sales
    requires Sell(s, c, branch, customerId, gstin, lines, payment, method_, sessionId).verdict == Crashed
    ensures Sell(s, c, branch, customerId, gstin, lines, payment, method_, sessionId).state.selling.sales != s.selling.sales
       <==> SaleStrands(s, branch, customerId, lines, sessionId)
            && FirstFault(lines, PricingFault(CatalogueOf(s), branch)) == |lines|
  {
    hide Map, FirstFault, SaleInvoiceOf, SaleOf, Advance, CountVisit, SettleSession, PricingFault;
    var t := Sell(s, c, branch, customerId, gstin, lines, payment, method_, sessionId).state;
    var k := FirstFault(lines, PricingFault(CatalogueOf(s), branch));
    if branch in s.registry.branches && k == |lines| > 0 {
      assert c.ids(1) in t.selling.sales;
      SettleCrashes(s.selling.cashSessions, sessionId, method_,
          SaleInvoiceOf(s.counters, CatalogueOf(s), s.registry.branches, c, branch, gstin, lines).grandTotal);
    } else {
      assert t.selling.sales == s.selling.sales;
    }
  }

  lemma {:induction false} SaleIsUncounted(s: State, c: Call, branch: Id, customerId: Option<Id>,
      gstin: Option<string>, lines: seq<Line>, payment: int, method_: string, sessionId: Option<Id>)
    requires SaleRefs(s.selling) && CustomersFaithful(s.selling)
    requires c.ids(1) !in s.selling.sales && c.ids(0) !in s.selling.invoices
    requires Sell(s, c, branch, customerId, gstin, lines, payment, method_, sessionId).verdict == Crashed
    ensures CustomersFaithful(Sell(s, c, branch, customerId, gstin, lines, payment, method_, sessionId).state.selling)
       <==> !(SaleStrands(s, branch, customerId, lines, sessionId) && customerId.Some?
              && FirstFault(lines, PricingFault(CatalogueOf(s), branch)) == |lines|)
  {
    hide FirstFault, Sell, CustomersFaithful, SaleRefs, SaleStrands;
    CrashStoresSale(s, c, branch, customerId, gstin, lines, payment, method_, sessionId);
    SellAndCustomers(s, c, branch, customerId, gstin, lines, payment, method_, sessionId);
  }

  lemma ConsistentRefs(s: State)
    requires Consistent(s)
    ensures SaleRefs(s.selling)
  {
    hide KeysOwn, BranchIds, RefsKnown, SaleRefs, DrawerOk, LedgerReconciles, ChainOk, CostsOk, SettlesBills, Numbered;
  }
}
