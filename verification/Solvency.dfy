/** Settlement safety over every accepted request. */
module Solvency {
  import opened Folds
  import opened Inventory
  import opened Taxes
  import opened Numbering
  import opened StateModel
  import opened Handlers
  import opened Frames
  import opened SettlementInvariant
  import opened LedgerInvariant
  import opened TillInvariants
  import opened ChainInvariant
  import opened NumberInvariant
  import opened Consistency

  ghost predicate Solvent(s: State) { RatesOk(s.registry.products) && PaymentsSafe(s.purchasing) }

  /** No product is taxed below -100%, where a line total could turn negative. */
  predicate SaneRate(r: Request) { r.CreateProduct? ==> r.taxRate >= LOWEST_RATE }

  /** A supplier return names no product twice. */
  predicate NoRepeats(r: Request) { r.ReturnToSupplier? ==> DistinctProducts(r.lines) }

  /** No stored invoice owes more in `q` than in `p`. */
  ghost predicate OweNoMore(p: Purchasing, q: Purchasing)
  {
    forall b :: b in p.purchaseInvoices ==> b in q.purchaseInvoices && Owed(q, b) <= Owed(p, b)
  }

  ghost predicate SameSettlement(p: Purchasing, q: Purchasing)
  {
    q.purchaseInvoices == p.purchaseInvoices && q.supplierReturns == p.supplierReturns
        && q.supplierPayments == p.supplierPayments
  }

  lemma OtherRequestsSettleNothing(s: State, c: Call, r: Request)
    requires !IsBilling(r)
    ensures SameSettlement(s.purchasing, Apply(s, c, r).state.purchasing)
  {
    hide ApplyRegistry, ApplyParty, ApplyBranch, ApplyOrdering, ApplyBilling, ApplyDispute, ApplyStock, ApplySelling,
        ApplyRefund;
    if IsRegistry(r) { RegistryFrame(s, c, r); }
    else if IsParty(r) { PartyFrame(s, c, r); }
    else if IsBranch(r) { BranchFrame(s, c, r); }
    else if IsOrdering(r) { OrderingFrame(s, c, r); }
    else if IsDispute(r) { DisputeFrame(s, c, r); }
    else if IsStock(r) { StockFrame(s, c, r); }
    else if IsSelling(r) { SellingFrame(s, c, r); }
    else { RefundFrame(s, c, r); }
  }

  lemma SettlementFollows(p: Purchasing, q: Purchasing)
    requires SameSettlement(p, q)
    ensures PaymentsSafe(p) ==> PaymentsSafe(q)
    ensures ReturnsBounded(p) ==> ReturnsBounded(q)
    ensures OweNoMore(p, q)
  {
    hide SumMap, WithinInvoice;
  }

  lemma RatesStayOk(s: State, c: Call, r: Request)
    requires RatesOk(s.registry.products) && SaneRate(r)
    ensures RatesOk(Apply(s, c, r).state.registry.products)
  {
    hide ApplyRegistry, ApplyParty, ApplyBranch, ApplyOrdering, ApplyBilling, ApplyDispute, ApplyStock, ApplySelling,
        ApplyRefund;
    if IsRegistry(r) { RatesStayWithRegistry(s, c, r); }
    else if IsParty(r) { RatesStayWithParty(s, c, r); }
    else if IsBranch(r) { RatesStayWithBranch(s, c, r); }
    else if IsOrdering(r) { OrderingFrame(s, c, r); }
    else if IsBilling(r) { BillingFrame(s, c, r); }
    else if IsDispute(r) { DisputeFrame(s, c, r); }
    else if IsStock(r) { StockFrame(s, c, r); }
    else if IsSelling(r) { SellingFrame(s, c, r); }
    else { RefundFrame(s, c, r); }
  }

  lemma RatesStayWithRegistry(s: State, c: Call, r: Request)
    requires RatesOk(s.registry.products) && IsRegistry(r)
    ensures RatesOk(ApplyRegistry(s, c, r).state.registry.products)
  {
  }

  lemma RatesStayWithParty(s: State, c: Call, r: Request)
    requires RatesOk(s.registry.products) && IsParty(r) && SaneRate(r)
    ensures RatesOk(ApplyParty(s, c, r).state.registry.products)
  {
  }

  lemma RatesStayWithBranch(s: State, c: Call, r: Request)
    requires RatesOk(s.registry.products) && IsBranch(r)
    ensures RatesOk(ApplyBranch(s, c, r).state.registry.products)
  {
  }

  lemma InvoiceIsSafe(s: State, c: Call, branch: Id, receiptId: Id)
    requires Consistent(s) && Solvent(s) && FreshIds(s, c.ids)
        && InvoiceReceipt(s, c, branch, receiptId).verdict == Accepted
    ensures var q := InvoiceReceipt(s, c, branch, receiptId).state.purchasing; PaymentsSafe(q) && OweNoMore(s.purchasing, q)
  {
    hide KeysOwn, BranchIds, RefsKnown, TillFaithful, LedgerReconciles, ChainOk, Numbered, PaymentsSafe, RatesOk, CostsOk,
         SettlesBills, Owed, PurchaseTotals, Map, NextNumber, Advance;
    assert Unused(s, c.ids(0));
    InvoiceKeepsSafe(s, c, branch, receiptId);
  }

  lemma SendBackIsSafe(s: State, c: Call, branch: Id, bill: Id, lines: seq<Line>)
    requires Consistent(s) && Solvent(s) && FreshIds(s, c.ids) && PositiveLines(lines)
    requires SendBack(s, c, branch, bill, lines).verdict == Accepted
    ensures var q := SendBack(s, c, branch, bill, lines).state.purchasing; PaymentsSafe(q) && OweNoMore(s.purchasing, q)
  {
    hide KeysOwn, BranchIds, RefsKnown, TillFaithful, LedgerReconciles, ChainOk, Numbered, PaymentsSafe, RatesOk, CostsOk,
         SettlesBills, Owed, PurchaseTotals, Map, NextNumber, Advance, FirstFault;
    assert Unused(s, c.ids(0));
    SendBackKeepsSafe(s, c, branch, bill, lines);
  }

  lemma PayIsSafe(s: State, c: Call, branch: Id, bill: Id, amount: int, method_: string)
    requires Consistent(s) && Solvent(s) && FreshIds(s, c.ids) && amount > 0
    requires Pay(s, c, branch, bill, amount, method_).verdict == Accepted
    ensures var q := Pay(s, c, branch, bill, amount, method_).state.purchasing;
            PaymentsSafe(q) && OweNoMore(s.purchasing, q)
  {
    hide KeysOwn, BranchIds, RefsKnown, TillFaithful, LedgerReconciles, ChainOk, Numbered, PaymentsSafe, RatesOk, CostsOk,
         SettlesBills, Owed, SumMap, NextNumber, Advance;
    assert Unused(s, c.ids(0));
    PayKeepsSafe(s, c, branch, bill, amount, method_);
  }

  lemma BillingKeepsSafe(s: State, c: Call, r: Request)
    requires Consistent(s) && Solvent(s) && FreshIds(s, c.ids) && IsBilling(r) && ValidPayload(r)
    requires ApplyBilling(s, c, r).verdict == Accepted
    ensures PaymentsSafe(ApplyBilling(s, c, r).state.purchasing)
    ensures OweNoMore(s.purchasing, ApplyBilling(s, c, r).state.purchasing)
  {
    hide Consistent, Solvent, FreshIds, PaymentsSafe, OweNoMore, InvoiceReceipt, SendBack, Pay;
    match r
    case CreatePurchaseInvoice(branch, receipt) => InvoiceIsSafe(s, c, branch, receipt);
    case ReturnToSupplier(branch, invoice, lines) => SendBackIsSafe(s, c, branch, invoice, lines);
    case PaySupplier(branch, invoice, amount, method_) => PayIsSafe(s, c, branch, invoice, amount, method_);
  }

  /** Every accepted request keeps payments within their invoices, and no invoice ever owes more than before. */
  lemma AcceptedKeepsSolvent(s: State, c: Call, r: Request)
    requires Consistent(s) && Solvent(s) && FreshIds(s, c.ids) && ValidPayload(r) && SaneRate(r)
    requires Apply(s, c, r).verdict == Accepted
    ensures Solvent(Apply(s, c, r).state) && OweNoMore(s.purchasing, Apply(s, c, r).state.purchasing)
  {
    hide Consistent, PaymentsSafe, RatesOk, OweNoMore, FreshIds, ValidPayload, SaneRate, SameSettlement, ApplyRegistry,
        ApplyParty, ApplyBranch, ApplyOrdering, ApplyBilling, ApplyDispute, ApplyStock, ApplySelling, ApplyRefund;
    RatesStayOk(s, c, r);
    if IsBilling(r) {
      BillingKeepsSafe(s, c, r);
    } else {
      OtherRequestsSettleNothing(s, c, r);
      SettlementFollows(s.purchasing, Apply(s, c, r).state.purchasing);
    }
  }

  lemma BillingStaysBounded(s: State, c: Call, r: Request)
    requires Consistent(s) && ReturnsBounded(s.purchasing) && FreshIds(s, c.ids) && IsBilling(r) && NoRepeats(r)
    requires ApplyBilling(s, c, r).verdict == Accepted
    ensures ReturnsBounded(ApplyBilling(s, c, r).state.purchasing)
  {
    hide KeysOwn, BranchIds, RefsKnown, TillFaithful, LedgerReconciles, ChainOk, Numbered, ReturnsBounded, CostsOk,
        SettlesBills, InvoiceReceipt, SendBack, Pay;
    assert Unused(s, c.ids(0));
    match r
    case CreatePurchaseInvoice(branch, receipt) => InvoiceStaysBounded(s, c, branch, receipt);
    case ReturnToSupplier(branch, invoice, lines) => SendBackStaysBounded(s, c, branch, invoice, lines);
    case PaySupplier(branch, invoice, amount, method_) => PayStaysBounded(s, c, branch, invoice, amount, method_);
  }

  lemma PayStaysBounded(s: State, c: Call, branch: Id, bill: Id, amount: int, method_: string)
    requires ReturnsBounded(s.purchasing)
    ensures ReturnsBounded(Pay(s, c, branch, bill, amount, method_).state.purchasing)
  {
    hide WithinInvoice, SumMap;
  }

  /** Every accepted request that repeats no product keeps returns within the invoiced quantities. */
  lemma AcceptedStaysBounded(s: State, c: Call, r: Request)
    requires Consistent(s) && ReturnsBounded(s.purchasing) && FreshIds(s, c.ids) && NoRepeats(r)
    requires Apply(s, c, r).verdict == Accepted
    ensures ReturnsBounded(Apply(s, c, r).state.purchasing)
  {
    hide Consistent, ReturnsBounded, FreshIds, NoRepeats, SameSettlement, ApplyRegistry, ApplyParty, ApplyBranch,
        ApplyOrdering, ApplyBilling, ApplyDispute, ApplyStock, ApplySelling, ApplyRefund;
    if IsBilling(r) {
      BillingStaysBounded(s, c, r);
    } else {
      OtherRequestsSettleNothing(s, c, r);
      SettlementFollows(s.purchasing, Apply(s, c, r).state.purchasing);
    }
  }
}
