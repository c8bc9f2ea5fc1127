/** Which parts of the state each group of requests may write, and the assumption made about `uuid4`. */
module Frames {
  import opened Folds
  import opened Inventory
  import opened Numbering
  import opened StateModel
  import opened BatchTracking
  import opened Handlers

  lemma RegistryFrame(s: State, c: Call, r: Request)
    requires IsRegistry(r)
    ensures var t := ApplyRegistry(s, c, r).state; t == s.(registry := t.registry)
  {
  }

  lemma PartyFrame(s: State, c: Call, r: Request)
    requires IsParty(r)
    ensures var t := ApplyParty(s, c, r).state; t == s.(registry := t.registry,
        selling := s.selling.(customers := t.selling.customers))
  {
  }

  lemma BranchFrame(s: State, c: Call, r: Request)
    requires IsBranch(r)
    ensures var t := ApplyBranch(s, c, r).state;
            t == s.(registry := t.registry, selling := s.selling.(cashSessions := t.selling.cashSessions))
  {
  }

  lemma OrderingFrame(s: State, c: Call, r: Request)
    requires IsOrdering(r)
    ensures var t := ApplyOrdering(s, c, r).state;
            t == s.(purchasing := s.purchasing.(purchaseOrders := t.purchasing.purchaseOrders,
                                                goodsReceipts := t.purchasing.goodsReceipts,
                                                batchLots := t.purchasing.batchLots),
                    ledger := t.ledger)
  {
    hide StoreLots, LotsMatch;
  }

  lemma BillingFrame(s: State, c: Call, r: Request)
    requires IsBilling(r)
    ensures var t := ApplyBilling(s, c, r).state; t == s.(purchasing := t.purchasing, counters := t.counters,
        ledger := t.ledger)
  {
    hide InvoiceReceipt, SendBack, Pay;
  }

  lemma DisputeFrame(s: State, c: Call, r: Request)
    requires IsDispute(r)
    ensures var t := ApplyDispute(s, c, r).state;
            t == s.(purchasing := s.purchasing.(vendorDisputes := t.purchasing.vendorDisputes))
  {
  }

  lemma StockFrame(s: State, c: Call, r: Request)
    requires IsStock(r)
    ensures var t := ApplyStock(s, c, r).state;
            t == s.(purchasing := s.purchasing.(batchLots := t.purchasing.batchLots), stockroom := t.stockroom,
                ledger := t.ledger)
  {
    hide WriteOff, AfterCounts, AfterTransfers, CountResults;
  }

  lemma SellingFrame(s: State, c: Call, r: Request)
    requires IsSelling(r)
    ensures var t := ApplySelling(s, c, r).state; t == s.(selling := t.selling, counters := t.counters, ledger := t.ledger)
  {
    hide RingUp, Swap;
  }

  lemma RefundFrame(s: State, c: Call, r: Request)
    requires IsRefund(r)
    ensures var t := ApplyRefund(s, c, r).state;
            t == s.(selling := s.selling.(saleReturns := t.selling.saleReturns, creditNotes := t.selling.creditNotes),
                    counters := t.counters, ledger := t.ledger)
  {
    hide TakeBack;
  }

  /** No document carries this id yet, no stored sale names it as its cash session, and it has no colon in it. */
  predicate Unused(s: State, id: Id)
  {
    && NoColon(id)
    && id !in s.registry.tenants && id !in s.registry.branches && id !in s.registry.products && id !in s.registry.suppliers
    && id !in s.purchasing.purchaseOrders && id !in s.purchasing.goodsReceipts && id !in s.purchasing.purchaseInvoices
    && id !in s.purchasing.vendorDisputes && id !in s.purchasing.supplierReturns && id !in s.purchasing.supplierPayments
    && id !in s.purchasing.batchLots
    && id !in s.selling.customers && id !in s.selling.cashSessions && id !in s.selling.invoices && id !in s.selling.sales
    && id !in s.selling.saleReturns && id !in s.selling.creditNotes && id !in s.selling.exchanges
    && id !in s.stockroom.transfers && id !in s.stockroom.stockCounts
    && (forall k :: k in s.selling.sales ==> s.selling.sales[k].sessionId != Some(id))
  }

  /** What `uuid4().hex` promises: ids that are new, pairwise different, and hexadecimal. */
  ghost predicate FreshIds(s: State, ids: Uuids)
  {
    && (forall n :: Unused(s, ids(n)))
    && (forall m, n :: m != n ==> ids(m) != ids(n))
  }
}
