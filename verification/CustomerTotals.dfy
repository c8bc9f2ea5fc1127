/** Which stored sales the customer totals miss: those of sales that crashed between their storing and their counting. */
module CustomerTotals {
  import opened Folds
  import opened Inventory
  import opened Numbering
  import opened StateModel
  import opened Handlers
  import opened Frames
  import opened TillInvariants
  import opened Consistency
  import opened History
  import opened Middleware
  import opened Crashes

  function Without(sell: Selling, missed: set<Id>): Selling { sell.(sales := sell.sales - missed) }

  function Hiding(s: State, missed: set<Id>): State { s.(selling := Without(s.selling, missed)) }

  /** Every customer's totals are those of the stored sales except `missed`, which are sales of named customers. */
  ghost predicate Misses(sell: Selling, missed: set<Id>)
  {
    && missed <= sell.sales.Keys && (forall k :: k in missed ==> sell.sales[k].customerId.Some?)
    && CustomersFaithful(Without(sell, missed))
  }

  /** A missed sale shows: the totals are those of all stored sales exactly when none is missed. */
  lemma MissedShows(sell: Selling, missed: set<Id>)
    requires SaleRefs(sell) && Misses(sell, missed)
    ensures CustomersFaithful(sell) <==> missed == {}
  {
    hide SumMap;
    if k :| k in missed {
      var id := sell.sales[k].customerId.value;
      assert CustomerOk(Without(sell, missed), id);
      SumMapRemove(sell.sales, k, VisitOf(id));
      SumMapWithout(sell.sales - {k}, missed, VisitOf(id));
      assert sell.sales - {k} - missed == sell.sales - missed;
      assert !CustomerOk(sell, id);
    } else {
      assert Without(sell, missed) == sell;
    }
  }

  /** A sale neither reads nor changes the sales stored before. */
  lemma SellHiding(s: State, missed: set<Id>, c: Call, branch: Id, customerId: Option<Id>, gstin: Option<string>,
      lines: seq<Line>, payment: int, method_: string, sessionId: Option<Id>)
    requires missed <= s.selling.sales.Keys && c.ids(1) !in s.selling.sales
    ensures var o := Sell(s, c, branch, customerId, gstin, lines, payment, method_, sessionId);
            var h := Sell(Hiding(s, missed), c, branch, customerId, gstin, lines, payment, method_, sessionId);
            h.verdict == o.verdict && h.state.selling == Without(o.state.selling, missed)
  {
    hide Map, FirstFault, SaleInvoiceOf, Advance, CountVisit, SettleSession;
    var sale := SaleOf(CatalogueOf(s), c, branch, customerId, lines, payment, method_, sessionId);
    assert (s.selling.sales - missed)[c.ids(1) := sale] == s.selling.sales[c.ids(1) := sale] - missed;
  }

  lemma HidingIsFresh(s: State, missed: set<Id>, c: Call)
    requires FreshIds(s, c.ids) && SaleRefs(s.selling)
    ensures FreshIds(Hiding(s, missed), c.ids) && SaleRefs(Hiding(s, missed).selling)
  {
    forall n ensures Unused(Hiding(s, missed), c.ids(n)) { assert Unused(s, c.ids(n)); }
  }

  lemma HiddenSale(s: State, missed: set<Id>, c: Call, r: Request)
    requires missed <= s.selling.sales.Keys && c.ids(1) !in s.selling.sales && r.CreateSale?
    ensures var o, h := ApplySelling(s, c, r), ApplySelling(Hiding(s, missed), c, r);
            h.verdict == o.verdict && h.state.selling == Without(o.state.selling, missed)
  {
    hide Sell;
    SellHiding(s, missed, c, r.branchId, r.customerId, r.customerGstin, r.lines, r.paymentAmount, r.paymentMethod,
               r.cashSessionId);
  }

  lemma HiddenParty(s: State, missed: set<Id>, c: Call, r: Request)
    requires IsParty(r)
    ensures ApplyParty(Hiding(s, missed), c, r).state.selling == Without(ApplyParty(s, c, r).state.selling, missed)
  {
  }

  lemma WithoutFollows(sell: Selling, t: Selling, missed: set<Id>)
    requires CustomersFaithful(Without(sell, missed)) && t.customers == sell.customers && t.sales == sell.sales
    requires t.invoices == sell.invoices
    ensures CustomersFaithful(Without(t, missed))
  {
    hide CustomersFaithful;
    CustomersFollow(Without(sell, missed), Without(t, missed));
  }

  lemma AcceptedFigures(s: State, c: Call, r: Request, missed: set<Id>)
    requires SaleRefs(s.selling) && FreshIds(s, c.ids) && Apply(s, c, r).verdict == Accepted
    requires missed <= s.selling.sales.Keys && CustomersFaithful(Without(s.selling, missed))
    ensures CustomersFaithful(Without(Apply(s, c, r).state.selling, missed))
  {
    hide CustomersFaithful, SaleRefs, Without, ApplyRegistry, ApplyParty, ApplyBranch, ApplyOrdering, ApplyBilling,
        ApplyDispute, ApplyStock, ApplySelling, ApplyRefund, Hiding;
    assert Hiding(s, missed).selling == Without(s.selling, missed) by { HidingSelling(s, missed); }
    assert Unused(s, c.ids(1));
    HidingIsFresh(s, missed, c);
    if IsParty(r) {
      HiddenParty(s, missed, c, r);
      PartyKeepsCustomers(Hiding(s, missed), c, r);
    } else if r.CreateSale? {
      HiddenSale(s, missed, c, r);
      SaleKeepsCustomers(Hiding(s, missed), c, r);
    } else {
      OthersLeaveTotals(s, c, r);
      WithoutFollows(s.selling, Apply(s, c, r).state.selling, missed);
    }
  }

  lemma HidingSelling(s: State, missed: set<Id>)
    ensures Hiding(s, missed).selling == Without(s.selling, missed)
  {
  }

  /** Stored sales stay, so missed ones stay missed sales of named customers. */
  lemma MissedStay(s: State, t: State, missed: set<Id>)
    requires Later(s, t) && missed <= s.selling.sales.Keys
    requires forall k :: k in missed ==> s.selling.sales[k].customerId.Some?
    ensures missed <= t.selling.sales.Keys && forall k :: k in missed ==> t.selling.sales[k].customerId.Some?
  {
    hide RegistryLater, BuyingLater, DrawersLater, CustomersLater, RefundsLater, CountersLater;
  }

  /** An accepted request misses no further sale, and never makes up for one. */
  lemma AcceptedMisses(s: State, c: Call, r: Request, missed: set<Id>)
    requires SaleRefs(s.selling) && Misses(s.selling, missed) && FreshIds(s, c.ids) && ValidPayload(r)
    requires Apply(s, c, r).verdict == Accepted
    ensures Misses(Apply(s, c, r).state.selling, missed)
  {
    hide SaleRefs, CustomersFaithful, Without, FreshIds, ValidPayload, Apply, Later;
    AcceptedIsLater(s, c, r);
    MissedStay(s, Apply(s, c, r).state, missed);
    AcceptedFigures(s, c, r, missed);
  }

  // ---- crashes ----

  lemma {:induction false} UncountedShape(s: State, c: Call, branch: Id, customerId: Option<Id>,
      gstin: Option<string>, lines: seq<Line>, payment: int, method_: string, sessionId: Option<Id>)
    requires c.ids(1) !in s.selling.sales && c.ids(0) !in s.selling.invoices
    requires SaleStrands(s, branch, customerId, lines, sessionId)
    requires FirstFault(lines, PricingFault(CatalogueOf(s), branch)) == |lines|
    ensures var t := Sell(s, c, branch, customerId, gstin, lines, payment, method_, sessionId).state.selling;
            && t.customers == s.selling.customers && c.ids(1) in t.sales && t.sales - {c.ids(1)} == s.selling.sales
            && t.sales[c.ids(1)].customerId == customerId
            && (forall k :: k in s.selling.invoices ==> k in t.invoices && t.invoices[k] == s.selling.invoices[k])
  {
    hide Map, FirstFault, SaleInvoiceOf, Advance, CountVisit, PricingFault;
  }

  lemma NewSaleMissed(sell: Selling, t: Selling, missed: set<Id>, id: Id)
    requires SaleRefs(sell) && Misses(sell, missed) && id !in sell.sales
    requires t.customers == sell.customers && id in t.sales && t.sales - {id} == sell.sales && t.sales[id].customerId.Some?
    requires forall k :: k in sell.invoices ==> k in t.invoices && t.invoices[k] == sell.invoices[k]
    ensures Misses(t, missed + {id})
  {
    hide SumMap;
    var before, after := Without(sell, missed), Without(t, missed + {id});
    assert after.sales == before.sales by { assert t.sales - (missed + {id}) == (t.sales - {id}) - missed; }
    forall k | k in missed ensures k in t.sales && t.sales[k].customerId.Some? { assert k in t.sales - {id}; }
    forall customer | customer in after.customers ensures CustomerOk(after, customer) {
      assert CustomerOk(before, customer);
      SumMapSame(before.sales, SpentBy(customer, before.invoices), SpentBy(customer, after.invoices));
    }
  }

  ghost function MissedAfter(s: State, c: Call, r: Request, missed: set<Id>): set<Id>
  {
    if Uncounted(s, c, r) then missed + {c.ids(1)} else missed
  }

  lemma {:induction false} SaleMisses(s: State, c: Call, branch: Id, customerId: Option<Id>,
      gstin: Option<string>, lines: seq<Line>, payment: int, method_: string, sessionId: Option<Id>, missed: set<Id>)
    requires SaleRefs(s.selling) && Misses(s.selling, missed) && FreshIds(s, c.ids)
    requires Sell(s, c, branch, customerId, gstin, lines, payment, method_, sessionId).verdict == Crashed
    ensures var lost := SaleStrands(s, branch, customerId, lines, sessionId) && customerId.Some?
              && FirstFault(lines, PricingFault(CatalogueOf(s), branch)) == |lines|;
            Misses(Sell(s, c, branch, customerId, gstin, lines, payment, method_, sessionId).state.selling,
                   if lost then missed + {c.ids(1)} else missed)
  {
    hide FirstFault, Sell, CustomersFaithful, SaleRefs, Later;
    var t := Sell(s, c, branch, customerId, gstin, lines, payment, method_, sessionId).state;
    assert Unused(s, c.ids(0)) && Unused(s, c.ids(1));
    SaleIsLater(s, c, branch, customerId, gstin, lines, payment, method_, sessionId);
    MissedStay(s, t, missed);
    if SaleStrands(s, branch, customerId, lines, sessionId) && customerId.Some?
        && FirstFault(lines, PricingFault(CatalogueOf(s), branch)) == |lines| {
      UncountedShape(s, c, branch, customerId, gstin, lines, payment, method_, sessionId);
      NewSaleMissed(s.selling, t.selling, missed, c.ids(1));
    } else {
      HidingIsFresh(s, missed, c);
      SellHiding(s, missed, c, branch, customerId, gstin, lines, payment, method_, sessionId);
      SaleIsUncounted(Hiding(s, missed), c, branch, customerId, gstin, lines, payment, method_, sessionId);
    }
  }

  /** A crash adds its own sale to the missed ones when it is uncounted, and nothing otherwise. */
  lemma CrashMisses(s: State, c: Call, r: Request, missed: set<Id>)
    requires Consistent(s) && Misses(s.selling, missed) && FreshIds(s, c.ids) && Serve(s, c, r).verdict == Crashed
    ensures Misses(Serve(s, c, r).state.selling, MissedAfter(s, c, r, missed))
  {
    hide Consistent, CustomersFaithful, SaleRefs, Blocked, ValidPayload, SaleStrands, ExchangeStrands, Sell, Swap, FreshIds,
        FirstFault, ApplyRegistry, ApplyParty, ApplyBranch, ApplyOrdering, ApplyBilling, ApplyDispute, ApplyStock,
        ApplyRefund, Without;
    StrandsExactly(s, c, r);
    ConsistentRefs(s);
    match r
    case CreateSale(branch, customer, gstin, lines, payment, method_, session) =>
      SaleMisses(s, c, branch, customer, gstin, lines, payment, method_, session, missed);
    case ExchangeSale(_, _, _, _, _, _) =>
      SwapLeavesTotals(s, c, r);
      WithoutFollows(s.selling, ApplySelling(s, c, r).state.selling, missed);
    case _ =>
  }

  /** From a state that misses no sale, a crash leaves the totals faithful exactly when it is not uncounted. */
  lemma CrashAndCustomers(s: State, c: Call, r: Request)
    requires Consistent(s) && CustomersFaithful(s.selling) && FreshIds(s, c.ids) && Serve(s, c, r).verdict == Crashed
    ensures CustomersFaithful(Serve(s, c, r).state.selling) <==> !Uncounted(s, c, r)
  {
    hide Consistent, CustomersFaithful, SaleRefs, FreshIds, Serve, Uncounted;
    assert Without(s.selling, {}) == s.selling;
    CrashMisses(s, c, r, {});
    CrashLeaves(s, c, r);
    ConsistentRefs(Serve(s, c, r).state);
    MissedShows(Serve(s, c, r).state.selling, MissedAfter(s, c, r, {}));
  }
}
