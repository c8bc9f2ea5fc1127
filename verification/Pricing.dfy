/** What is charged and credited at the counter: prices, totals, drawers, and overrides over whole runs. */
module Pricing {
  import opened Folds
  import opened Inventory
  import opened Entities
  import opened Money
  import opened Taxes
  import opened Numbering
  import opened StateModel
  import opened Handlers
  import opened Frames
  import opened Middleware
  import opened Runs
  import opened Lifecycles

  /** The price the branch has set for the product, if it has. */
  function OwnPrice(r: Registry, branch: Id, productId: Id): Option<int>
  {
    if (branch, productId) in r.catalogOverrides then r.catalogOverrides[(branch, productId)].sellingPrice else None
  }

  /** The branch's own price, and without one the list price. */
  predicate Charges(r: Registry, branch: Id, productId: Id, price: int)
  {
    && productId in r.products
    && (OwnPrice(r, branch, productId) == None ==> price == r.products[productId].sellingPrice)
    && (OwnPrice(r, branch, productId) != None ==> OwnPrice(r, branch, productId) == Some(price))
  }

  /** The product is stored and the branch has not switched it off. */
  predicate Sellable(r: Registry, branch: Id, productId: Id)
  {
    && productId in r.products
    && ((branch, productId) in r.catalogOverrides ==> r.catalogOverrides[(branch, productId)].active)
  }

  /** `priced` are the requested lines at the branch's prices. */
  ghost predicate AtPrices(r: Registry, branch: Id, lines: seq<Line>, priced: seq<SaleLine>)
  {
    && |priced| == |lines|
    && forall i :: 0 <= i < |lines| ==>
         && priced[i].productId == lines[i].productId && priced[i].quantity == lines[i].quantity
         && Charges(r, branch, lines[i].productId, priced[i].unitPrice)
  }

  function LineValue(): SaleLine -> int { (l: SaleLine) => Amount(l.quantity, l.unitPrice) }

  lemma PriceIsCharged(s: State, branch: Id, productId: Id)
    requires productId in s.registry.products
    ensures Charges(s.registry, branch, productId, UnitPrice(CatalogueOf(s), branch, productId))
    ensures forall p :: Charges(s.registry, branch, productId, p) ==> p == UnitPrice(CatalogueOf(s), branch, productId)
  {
  }

  lemma {:induction false} SellableLines(s: State, branch: Id, lines: seq<Line>)
    ensures FirstFault(lines, PricingFault(CatalogueOf(s), branch)) == |lines|
       <==> forall i :: 0 <= i < |lines| ==> Sellable(s.registry, branch, lines[i].productId)
  {
    var check := PricingFault(CatalogueOf(s), branch);
    forall i | 0 <= i < |lines| ensures check(lines[i]) == Accepted <==> Sellable(s.registry, branch, lines[i].productId) {
    }
  }

  /** Lines at the branch's prices add up to what the handler charges for them, and there is one such list. */
  lemma {:induction false} PricedTotal(s: State, branch: Id, lines: seq<Line>, priced: seq<SaleLine>)
    requires AtPrices(s.registry, branch, lines, priced)
    ensures Sum(priced, LineValue()) == Sum(lines, LineTotal(CatalogueOf(s), branch))
    ensures priced == Map(lines, SoldLine(CatalogueOf(s), branch))
  {
    hide Amount, Sum, UnitPrice;
    var cat := CatalogueOf(s);
    forall i | 0 <= i < |lines| ensures priced[i] == SoldLine(cat, branch)(lines[i]) {
      PriceIsCharged(s, branch, lines[i].productId);
    }
    assert priced == Map(lines, SoldLine(cat, branch));
    assert forall l :: LineTotal(cat, branch)(l) == LineValue()(SoldLine(cat, branch)(l));
    MapSum(lines, SoldLine(cat, branch), LineValue(), LineTotal(cat, branch));
  }

  /** A session that can take the payment: none is named, or a stored one that is open. */
  predicate DrawerReady(s: State, session: Option<Id>)
  {
    session.Some? ==> session.value in s.selling.cashSessions && s.selling.cashSessions[session.value].open
  }

  /** A sale is accepted exactly when its branch, customer, lines and drawer are in order. */
  lemma SaleIsAccepted(s: State, c: Call, branch: Id, customerId: Option<Id>, gstin: Option<string>, lines: seq<Line>,
                       payment: int, method_: string, session: Option<Id>)
    ensures Sell(s, c, branch, customerId, gstin, lines, payment, method_, session).verdict == Accepted
       <==> && branch in s.registry.branches && (customerId.Some? ==> customerId.value in s.selling.customers)
            && |lines| > 0 && (forall i :: 0 <= i < |lines| ==> Sellable(s.registry, branch, lines[i].productId))
            && DrawerReady(s, session)
  {
    hide Map, FirstFault, SaleInvoiceOf, SaleOf, Advance, CountVisit, PricingFault, Sellable;
    SellableLines(s, branch, lines);
  }

  /** The drawer holds `amount` more than before. */
  predicate TakesIn(s: State, t: Selling, session: Id, amount: int)
  {
    && session in s.selling.cashSessions && session in t.cashSessions
    && t.cashSessions[session].cashSales == s.selling.cashSessions[session].cashSales + amount
  }

  /**
   * An accepted sale stores its lines at the branch's prices and an invoice over exactly those lines: the subtotal is
   * the sum of their rounded amounts, the tax is at the first product's rate, and a cash drawer takes in the total.
   */
  lemma SaleIsPriced(s: State, c: Call, branch: Id, customerId: Option<Id>, gstin: Option<string>, lines: seq<Line>,
                     payment: int, method_: string, session: Option<Id>)
    requires Sell(s, c, branch, customerId, gstin, lines, payment, method_, session).verdict == Accepted
    ensures var t := Sell(s, c, branch, customerId, gstin, lines, payment, method_, session).state.selling;
            && c.ids(0) in t.invoices && c.ids(1) in t.sales
            && AtPrices(s.registry, branch, lines, t.sales[c.ids(1)].lines)
            && var v := t.invoices[c.ids(0)];
               && v.subtotal == Sum(t.sales[c.ids(1)].lines, LineValue())
               && v.tax == InvoiceTaxes(s.registry.branches[branch].gstin, gstin, v.subtotal,
                                        s.registry.products[lines[0].productId].taxRate)
               && v.grandTotal == v.subtotal + v.tax.total
               && (session.Some? && method_ == "cash" ==> TakesIn(s, t, session.value, v.grandTotal))
  {
    hide FirstFault, Sum, InvoiceTaxes, NextNumber, Advance, CountVisit, UnitPrice, Amount, LineValue, LineTotal, Map;
    SaleIsAccepted(s, c, branch, customerId, gstin, lines, payment, method_, session);
    SellableLines(s, branch, lines);
    PricedLines(s, branch, lines);
    PricedTotal(s, branch, lines, Map(lines, SoldLine(CatalogueOf(s), branch)));
  }

  lemma PricedLines(s: State, branch: Id, lines: seq<Line>)
    requires forall i :: 0 <= i < |lines| ==> Sellable(s.registry, branch, lines[i].productId)
    ensures AtPrices(s.registry, branch, lines, Map(lines, SoldLine(CatalogueOf(s), branch)))
  {
    hide UnitPrice, Charges;
    forall i | 0 <= i < |lines| { PriceIsCharged(s, branch, lines[i].productId); }
  }

  // ---- goods taken back ----

  /** Line `j` is the first line of the sale with that product. */
  predicate FirstSold(sale: Sale, productId: Id, j: int)
  {
    && 0 <= j < |sale.lines| && sale.lines[j].productId == productId
    && forall i :: 0 <= i < j ==> sale.lines[i].productId != productId
  }

  predicate WasSold(sale: Sale, productId: Id)
  {
    exists j :: 0 <= j < |sale.lines| && sale.lines[j].productId == productId
  }

  /** `returned` are the requested lines at the price the sale first charged for their product. */
  ghost predicate AtSoldPrices(sale: Sale, lines: seq<Line>, returned: seq<SaleLine>)
  {
    && |returned| == |lines|
    && forall i :: 0 <= i < |lines| ==>
         && returned[i].productId == lines[i].productId && returned[i].quantity == lines[i].quantity
         && exists j :: FirstSold(sale, lines[i].productId, j) && returned[i].unitPrice == sale.lines[j].unitPrice
  }

  lemma {:induction false} FirstSoldIsFound(sale: Sale, lines: seq<SaleLine>, productId: Id, n: nat)
    requires n <= |sale.lines| && lines == sale.lines[n..]
    requires forall i :: 0 <= i < n ==> sale.lines[i].productId != productId
    ensures var f := FindSaleLine(lines, productId);
            && (f.None? ==> !WasSold(sale, productId))
            && (f.Some? ==> exists j :: FirstSold(sale, productId, j) && sale.lines[j] == f.value)
    decreases |lines|
  {
    if |lines| > 0 {
      if lines[0].productId == productId {
        assert FirstSold(sale, productId, n);
      } else {
        FirstSoldIsFound(sale, lines[1..], productId, n + 1);
      }
    }
  }

  /** A product was sold exactly when the handler finds it, and it is returned at the price of its first line. */
  lemma {:induction false} SoldPriceIs(sale: Sale, productId: Id, price: int)
    ensures FindSaleLine(sale.lines, productId).Some? <==> WasSold(sale, productId)
    ensures (exists j :: FirstSold(sale, productId, j) && price == sale.lines[j].unitPrice)
        ==> price == SoldPrice(sale, productId)
  {
    hide FindSaleLine;
    FirstSoldIsFound(sale, sale.lines, productId, 0);
  }

  lemma {:induction false} ReturnableLines(sale: Sale, lines: seq<Line>)
    ensures FirstFault(lines, ReturnFault(sale)) == |lines|
       <==> forall i :: 0 <= i < |lines| ==> WasSold(sale, lines[i].productId)
  {
    hide FindSaleLine, WasSold;
    var check := ReturnFault(sale);
    forall i | 0 <= i < |lines| ensures check(lines[i]) == Accepted <==> WasSold(sale, lines[i].productId) {
      SoldPriceIs(sale, lines[i].productId, 0);
    }
  }

  lemma {:induction false} ReturnedValue(sale: Sale, lines: seq<Line>, returned: seq<SaleLine>)
    requires AtSoldPrices(sale, lines, returned)
    ensures Sum(returned, LineValue()) == Sum(lines, ReturnedTotal(sale))
    ensures forall i :: 0 <= i < |lines| ==> WasSold(sale, lines[i].productId)
  {
    hide Amount, SoldPrice;
    forall i | 0 <= i < |lines|
      ensures LineValue()(returned[i]) == ReturnedTotal(sale)(lines[i]) && WasSold(sale, lines[i].productId)
    {
      SoldPriceIs(sale, lines[i].productId, returned[i].unitPrice);
    }
    SameTotals(returned, lines, LineValue(), ReturnedTotal(sale));
  }

  lemma {:induction false} SameTotals<T, U>(xs: seq<T>, ys: seq<U>, f: T -> int, g: U -> int)
    requires |xs| == |ys| && forall i :: 0 <= i < |xs| ==> f(xs[i]) == g(ys[i])
    ensures Sum(xs, f) == Sum(ys, g)
  {
    if |xs| > 0 { SameTotals(xs[..|xs| - 1], ys[..|ys| - 1], f, g); }
  }

  /** The tax on a sum at the rate of a product. */
  function TaxAt(s: State, productId: Id, subtotal: int): int
    requires productId in s.registry.products
  {
    TaxOn(subtotal, s.registry.products[productId].taxRate)
  }

  /**
   * A sale return is accepted exactly when the sale and its branch are known, every line was sold, and the refund is at
   * most what was paid and at most what the returned lines cost with tax at the first product's rate.
   */
  lemma {:induction false} ReturnIsAccepted(s: State, c: Call, branch: Id, saleId: Id, lines: seq<Line>, refund: int,
                                            mayApprove: bool, returned: seq<SaleLine>)
    requires saleId in s.selling.sales ==>
               (forall i :: 0 <= i < |lines| ==> WasSold(s.selling.sales[saleId], lines[i].productId)) ==>
                 AtSoldPrices(s.selling.sales[saleId], lines, returned)
    ensures TakeBack(s, c, branch, saleId, lines, refund, mayApprove).verdict == Accepted
       <==> && saleId in s.selling.sales && s.selling.sales[saleId].invoiceId in s.selling.invoices
            && branch in s.registry.branches && |lines| > 0 && lines[0].productId in s.registry.products
            && (forall i :: 0 <= i < |lines| ==> WasSold(s.selling.sales[saleId], lines[i].productId))
            && refund <= s.selling.sales[saleId].paymentAmount
            && var subtotal := Sum(returned, LineValue()); refund <= subtotal + TaxAt(s, lines[0].productId, subtotal)
  {
    hide Map, FirstFault, FindSaleLine, Advance, ReturnFault, NextNumber, WasSold, Sum, AtSoldPrices, TaxOn;
    if saleId in s.selling.sales {
      var sale := s.selling.sales[saleId];
      ReturnableLines(sale, lines);
      if forall i :: 0 <= i < |lines| ==> WasSold(sale, lines[i].productId) { ReturnedValue(sale, lines, returned); }
    }
  }

  /** The credit note of an accepted return is over the returned lines at the prices they were sold at. */
  lemma {:induction false} ReturnIsCredited(s: State, c: Call, branch: Id, saleId: Id, lines: seq<Line>, refund: int,
                                            mayApprove: bool, returned: seq<SaleLine>)
    requires TakeBack(s, c, branch, saleId, lines, refund, mayApprove).verdict == Accepted
    requires AtSoldPrices(s.selling.sales[saleId], lines, returned)
    ensures var t := TakeBack(s, c, branch, saleId, lines, refund, mayApprove).state.selling;
            && c.ids(0) in t.saleReturns && t.saleReturns[c.ids(0)].creditNoteId in t.creditNotes
            && t.saleReturns[c.ids(0)].refund == refund && t.saleReturns[c.ids(0)].refundApproved == mayApprove
            && var n := t.creditNotes[t.saleReturns[c.ids(0)].creditNoteId];
               && n.subtotal == Sum(returned, LineValue())
               && n.tax == InvoiceTaxes(s.registry.branches[branch].gstin,
                                        s.selling.invoices[s.selling.sales[saleId].invoiceId].customerGstin, n.subtotal,
                                        s.registry.products[lines[0].productId].taxRate)
               && n.grandTotal == n.subtotal + n.tax.total
  {
    hide Map, FirstFault, FindSaleLine, Advance, ReturnFault, NextNumber, Sum, AtSoldPrices, InvoiceTaxes;
    ReturnedValue(s.selling.sales[saleId], lines, returned);
  }

  // ---- exchanges ----

  /** A line's amount with tax at its own product's rate. */
  function Gross(s: State): SaleLine -> int
  {
    (l: SaleLine) =>
      LineValue()(l) + if l.productId in s.registry.products then TaxAt(s, l.productId, LineValue()(l)) else 0
  }

  lemma {:induction false} ExchangeableLines(s: State, sale: Sale, lines: seq<Line>)
    ensures FirstFault(lines, ExchangeFault(s.registry.products, sale)) == |lines|
       <==> forall i :: 0 <= i < |lines| ==>
              WasSold(sale, lines[i].productId) && lines[i].productId in s.registry.products
  {
    hide FindSaleLine, WasSold;
    var check := ExchangeFault(s.registry.products, sale);
    forall i | 0 <= i < |lines|
      ensures check(lines[i]) == Accepted
         <==> (WasSold(sale, lines[i].productId) && lines[i].productId in s.registry.products)
    {
      SoldPriceIs(sale, lines[i].productId, 0);
    }
  }

  /** An exchange is accepted exactly when the goods were sold, the replacements can be, and the drawer is in order. */
  lemma ExchangeIsAccepted(s: State, c: Call, branch: Id, saleId: Id, lines: seq<Line>, replacements: seq<Line>,
                           method_: string, session: Option<Id>)
    ensures Swap(s, c, branch, saleId, lines, replacements, method_, session).verdict == Accepted
       <==> && saleId in s.selling.sales
            && (forall i :: 0 <= i < |lines| ==>
                  WasSold(s.selling.sales[saleId], lines[i].productId) && lines[i].productId in s.registry.products)
            && (forall i :: 0 <= i < |replacements| ==> Sellable(s.registry, branch, replacements[i].productId))
            && DrawerReady(s, session)
  {
    hide Map, FirstFault, FindSaleLine, ExchangeOf, PricingFault, ExchangeFault, WasSold, Sellable;
    if saleId in s.selling.sales { ExchangeableLines(s, s.selling.sales[saleId], lines); }
    SellableLines(s, branch, replacements);
  }

  lemma {:induction false} GrossTotals(s: State, branch: Id, sale: Sale, lines: seq<Line>, replacements: seq<Line>,
                                       returned: seq<SaleLine>, priced: seq<SaleLine>)
    requires AtSoldPrices(sale, lines, returned) && AtPrices(s.registry, branch, replacements, priced)
    ensures Sum(lines, ReturnedGross(s.registry.products, sale)) == Sum(returned, Gross(s))
    ensures Sum(replacements, ReplacementGross(CatalogueOf(s), branch)) == Sum(priced, Gross(s))
  {
    hide Amount, SoldPrice, UnitPrice, TaxOn, Charges;
    var f, g := ReturnedGross(s.registry.products, sale), ReplacementGross(CatalogueOf(s), branch);
    forall i | 0 <= i < |lines| ensures Gross(s)(returned[i]) == f(lines[i]) {
      SoldPriceIs(sale, lines[i].productId, returned[i].unitPrice);
      assert ReturnedTotal(sale)(lines[i]) == LineValue()(returned[i]);
      GrossIsInclusive(s, returned[i]);
    }
    forall i | 0 <= i < |replacements| ensures Gross(s)(priced[i]) == g(replacements[i]) {
      PricedIsKnown(s, branch, replacements[i].productId, priced[i].unitPrice);
      PriceIsCharged(s, branch, replacements[i].productId);
      assert LineTotal(CatalogueOf(s), branch)(replacements[i]) == LineValue()(priced[i]);
      GrossIsInclusive(s, priced[i]);
    }
    SameTotals(returned, lines, Gross(s), f);
    SameTotals(priced, replacements, Gross(s), g);
  }

  /** An unknown product is taxed at no rate, which is no tax. */
  lemma GrossIsInclusive(s: State, l: SaleLine)
    ensures Gross(s)(l) == TaxInclusive(LineValue()(l), RateOf(s.registry.products, l.productId))
  {
    hide Amount;
    assert TaxOn(LineValue()(l), 0) == 0;
  }

  lemma PricedIsKnown(s: State, branch: Id, productId: Id, price: int)
    requires Charges(s.registry, branch, productId, price)
    ensures productId in s.registry.products
  {
  }

  /**
   * The totals of an accepted exchange are those of the returned lines at the prices they were sold at and of the
   * replacements at the branch's prices, taxed line by line; the customer pays or gets back the difference.
   */
  lemma {:induction false} ExchangeIsPriced(s: State, c: Call, branch: Id, saleId: Id, lines: seq<Line>,
                                            replacements: seq<Line>, method_: string, session: Option<Id>,
                                            returned: seq<SaleLine>, priced: seq<SaleLine>)
    requires Swap(s, c, branch, saleId, lines, replacements, method_, session).verdict == Accepted
    requires AtSoldPrices(s.selling.sales[saleId], lines, returned)
    requires AtPrices(s.registry, branch, replacements, priced)
    ensures var t := Swap(s, c, branch, saleId, lines, replacements, method_, session).state.selling;
            && c.ids(0) in t.exchanges
            && var x := t.exchanges[c.ids(0)];
               && x.returnTotal == Sum(returned, Gross(s)) && x.replacementTotal == Sum(priced, Gross(s))
               && x.balance == Abs(x.replacementTotal - x.returnTotal)
               && (x.direction == Collect <==> x.replacementTotal > x.returnTotal)
               && (x.direction == Refund <==> x.replacementTotal < x.returnTotal)
               && (session.Some? && method_ == "cash" ==>
                     TakesIn(s, t, session.value, x.replacementTotal - x.returnTotal))
  {
    hide Map, FirstFault, FindSaleLine, PricingFault, ExchangeFault, Sum, AtSoldPrices, AtPrices, ReturnedGross,
        ReplacementGross, Gross;
    GrossTotals(s, branch, s.selling.sales[saleId], lines, replacements, returned, priced);
  }

  // ---- over whole runs ----

  /** The price in force before boundary `i`: the branch's last saved one, and if that is none, the product's own. */
  ghost predicate LastPrice(ws: seq<World>, es: seq<Event>, i: nat, branch: Id, productId: Id, price: int)
    requires i <= |es| < |ws|
  {
    if exists o :: LastMark(ws, es, i, OverrideMark(branch, productId), o) && o.sellingPrice.Some?
    then exists o :: LastMark(ws, es, i, OverrideMark(branch, productId), o) && o.sellingPrice == Some(price)
    else exists p :: LastMark(ws, es, i, ProductMark(productId), p) && p.sellingPrice == price
  }

  lemma ChargedIsLastPrice(ws: seq<World>, es: seq<Event>, i: nat, branch: Id, productId: Id, price: int)
    requires IsRun(ws, es) && i < |es| && Charges(ws[i].mem.registry, branch, productId, price)
    ensures LastPrice(ws, es, i, branch, productId, price)
  {
    hide LastMark, Step;
    var s := ws[i].mem;
    forall o ensures OverrideAt(branch, productId)(s) == Some(o)
                <==> LastMark(ws, es, i, OverrideMark(branch, productId), o) {
      RunsKeepOverrides(ws, es, i, branch, productId, o);
    }
    var p := s.registry.products[productId];
    RunsKeepProducts(ws, es, i, productId, p);
    if OwnPrice(s.registry, branch, productId) != None {
      var o := s.registry.catalogOverrides[(branch, productId)];
      assert OverrideAt(branch, productId)(s) == Some(o);
    }
  }

  /**
   * In every run an accepted sale charges each product at the price its branch last saved for it, and at the price the
   * product was created with if the branch has saved none.
   */
  lemma RunsChargeLastPrice(ws: seq<World>, es: seq<Event>, i: nat, n: nat)
    requires IsRun(ws, es) && i < |es| && Serves(ws[i], es[i]) && es[i].request.CreateSale?
    requires n < |es[i].request.lines|
    ensures var sales, id, l := ws[i + 1].mem.selling.sales, es[i].call.ids(1), es[i].request.lines[n];
            && id in sales && n < |sales[id].lines|
            && sales[id].lines[n].productId == l.productId && sales[id].lines[n].quantity == l.quantity
            && LastPrice(ws, es, i, es[i].request.branchId, l.productId, sales[id].lines[n].unitPrice)
  {
    hide LastPrice, Sell, ValidPayload, FreshIds, SnapshotOf, Blocked, Sum, InvoiceTaxes, Charges;
    assert Step(ws[i], es[i], ws[i + 1]);
    var c, r := es[i].call, es[i].request;
    SaleIsPriced(ws[i].mem, c, r.branchId, r.customerId, r.customerGstin, r.lines, r.paymentAmount, r.paymentMethod,
                 r.cashSessionId);
    var price := ws[i + 1].mem.selling.sales[c.ids(1)].lines[n].unitPrice;
    ChargedIsLastPrice(ws, es, i, r.branchId, r.lines[n].productId, price);
  }
}
