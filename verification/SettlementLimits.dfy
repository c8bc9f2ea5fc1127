/** Exactly when the settlement handlers keep returns within the invoice and payments within its total. */
module SettlementLimits {
  import opened Folds
  import opened Inventory
  import opened Entities
  import opened Money
  import opened Taxes
  import opened Numbering
  import opened StateModel
  import opened Handlers
  import opened Frames
  import opened SettlementInvariant
  import opened Consistency
  import opened Solvency
  import opened Middleware
  import opened Runs
  import opened Scenarios

  // ---- returned quantities ----

  /** The largest quantity a request asks back of an item in one line. */
  function Largest(lines: seq<Line>, item: Id): (m: int)
    ensures m >= 0
    ensures forall i :: 0 <= i < |lines| && lines[i].productId == item ==> lines[i].quantity <= m
  {
    if |lines| == 0 then 0
    else
      var n := |lines| - 1;
      var m := Largest(lines[..n], item);
      assert forall i :: 0 <= i < n ==> lines[..n][i] == lines[i];
      if lines[n].productId == item then Max(m, lines[n].quantity) else m
  }

  predicate Names(lines: seq<Line>, item: Id) { exists i :: 0 <= i < |lines| && lines[i].productId == item }

  /** Two lines for an item add up to more than the larger of them. */
  lemma {:induction false} RepeatedExceeds(lines: seq<Line>, item: Id)
    requires PositiveLines(lines)
    ensures Sum(lines, Ordered(item)) >= Largest(lines, item)
    ensures (exists i, j :: 0 <= i < j < |lines| && lines[i].productId == item && lines[j].productId == item)
            ==> Sum(lines, Ordered(item)) > Largest(lines, item)
    ensures Names(lines, item) ==> Sum(lines, Ordered(item)) > 0 && Largest(lines, item) > 0
  {
    if |lines| > 0 {
      var n := |lines| - 1;
      RepeatedExceeds(lines[..n], item);
      assert forall i :: 0 <= i < n ==> lines[..n][i] == lines[i];
      if i, j :| 0 <= i < j < |lines| && lines[i].productId == item && lines[j].productId == item {
        assert lines[..n][i].productId == item;
        if j < n { assert lines[..n][j].productId == item; }
      }
      if i :| 0 <= i < n && lines[i].productId == item { assert lines[..n][i].productId == item; }
    }
  }

  /** One order line for every product a request names, for the largest quantity it asks back in one line. */
  function Tight(all: seq<Line>, lines: seq<Line>): seq<OrderLine>
  {
    if |lines| == 0 then []
    else
      var n := |lines| - 1;
      var rest := Tight(all, lines[..n]);
      if FindLine(rest, lines[n].productId).Some? then rest
      else rest + [OrderLine(lines[n].productId, Largest(all, lines[n].productId), 1)]
  }

  lemma {:induction false} FindLineSnoc(lines: seq<OrderLine>, l: OrderLine, item: Id)
    ensures FindLine(lines + [l], item)
         == if FindLine(lines, item).Some? then FindLine(lines, item)
            else if l.productId == item then Some(l) else None
  {
    if |lines| > 0 {
      assert (lines + [l])[1..] == lines[1..] + [l];
      FindLineSnoc(lines[1..], l, item);
    }
  }

  lemma {:induction false} TightFound(all: seq<Line>, lines: seq<Line>, item: Id)
    ensures FindLine(Tight(all, lines), item)
         == if Names(lines, item) then Some(OrderLine(item, Largest(all, item), 1)) else None
    ensures Sum(Bare(Tight(all, lines)), Ordered(item)) == if Names(lines, item) then Largest(all, item) else 0
  {
    if |lines| > 0 {
      var n := |lines| - 1;
      var rest := Tight(all, lines[..n]);
      var l := OrderLine(lines[n].productId, Largest(all, lines[n].productId), 1);
      TightFound(all, lines[..n], item);
      TightFound(all, lines[..n], lines[n].productId);
      assert forall i :: 0 <= i < n ==> lines[..n][i] == lines[i];
      assert Names(lines, item) <==> Names(lines[..n], item) || lines[n].productId == item;
      FindLineSnoc(rest, l, item);
      assert Bare(rest + [l]) == Bare(rest) + [Line(l.productId, l.quantity)];
      SumSnoc(Bare(rest), Line(l.productId, l.quantity), Ordered(item));
    }
  }

  lemma {:induction false} TightMembers(all: seq<Line>, lines: seq<Line>)
    ensures forall l :: l in Tight(all, lines) ==>
      Names(lines, l.productId) && l.quantity == Largest(all, l.productId) && l.unitCost == 1
  {
    if |lines| > 0 {
      var n := |lines| - 1;
      TightMembers(all, lines[..n]);
      assert forall i :: 0 <= i < n ==> lines[..n][i] == lines[i];
      forall l | l in Tight(all, lines) && Names(lines[..n], l.productId) ensures Names(lines, l.productId) {}
    }
  }

  function Untaxed(): Line -> Item { (l: Line) => Item(l.productId, 0) }

  function Longest(lines: seq<Line>): (k: nat)
    ensures forall i :: 0 <= i < |lines| ==> |lines[i].productId| < k
  {
    if |lines| == 0 then 0
    else
      var n := |lines| - 1;
      var k := Longest(lines[..n]);
      assert forall i :: 0 <= i < n ==> lines[..n][i] == lines[i];
      if |lines[n].productId| < k then k else |lines[n].productId| + 1
  }

  /** A purchase of just as much of every product as one line of the request may return. */
  function TightDeal(lines: seq<Line>): Deal
  {
    Deal(Longest(lines), StockOf(Map(lines, Untaxed())), Tight(lines, lines))
  }

  lemma {:induction false} TightIsSensible(lines: seq<Line>)
    requires PositiveLines(lines)
    ensures Sensible(TightDeal(lines))
    ensures forall i :: 0 <= i < |lines| ==> lines[i].productId in TightDeal(lines).stock
  {
    hide Tight, Sum, StockOf, Largest, Longest;
    var d, items := TightDeal(lines), Map(lines, Untaxed());
    forall id ensures id in d.stock <==> Names(lines, id) {
      StockKeys(items, id);
      if i :| 0 <= i < |items| && items[i].id == id { assert lines[i].productId == id; }
      if i :| 0 <= i < |lines| && lines[i].productId == id { assert items[i].id == id; }
    }
    TightMembers(lines, lines);
    forall i | 0 <= i < |d.lines|
      ensures d.lines[i].quantity > 0 && d.lines[i].unitCost > 0 && d.lines[i].productId in d.stock
    {
      assert d.lines[i] in d.lines;
      RepeatedExceeds(lines, d.lines[i].productId);
    }
  }

  /** A return whose lines all pass is stored with its credit note, and nothing else of purchasing changes. */
  lemma PassedReturn(s: State, c: Call, branch: Id, billId: Id, lines: seq<Line>)
    requires billId in s.purchasing.purchaseInvoices && branch in s.registry.branches
    requires s.purchasing.purchaseInvoices[billId].supplierId in s.registry.suppliers
    requires AllPass(s.purchasing.purchaseInvoices[billId], billId, s.purchasing.supplierReturns, s.registry.products,
                     lines)
    ensures var note := ReturnNoteOf(s, c, branch, s.purchasing.purchaseInvoices[billId], billId, lines);
            var o := SendBack(s, c, branch, billId, lines);
            && o.verdict == Accepted && note.lines == lines && note.invoiceId == billId
            && o.state.purchasing == s.purchasing.(supplierReturns := s.purchasing.supplierReturns[c.ids(0) := note])
  {
    hide FirstFault, SupplierReturnFault, Map, PurchaseTotals, NextNumber, Advance;
    var bill := s.purchasing.purchaseInvoices[billId];
    FirstFaultAt(lines, SupplierReturnFault(bill, billId, s.purchasing.supplierReturns, s.registry.products), |lines|);
  }

  lemma {:induction false} TightReturnPasses(lines: seq<Line>)
    requires PositiveLines(lines)
    ensures var d := TightDeal(lines);
            var o := SendBack(Invoiced(d), NewCall(d.k + 5), DealBranch(d), BillId(d), lines);
            && o.verdict == Accepted
            && BillId(d) in o.state.purchasing.purchaseInvoices
            && o.state.purchasing.purchaseInvoices[BillId(d)].lines == d.lines
            && (forall item :: Returned(o.state.purchasing.supplierReturns, BillId(d), item) == Sum(lines, Ordered(item)))
  {
    hide Sum, SumMap, Map, PurchaseTotals, NextNumber, Advance, Tight, Largest, StockOf, FindLine, Zeros, SendBack;
    var d := TightDeal(lines);
    var s, c := Invoiced(d), NewCall(d.k + 5);
    var bill := s.purchasing.purchaseInvoices[BillId(d)];
    var check := SupplierReturnFault(bill, BillId(d), s.purchasing.supplierReturns, s.registry.products);
    TightIsSensible(lines);
    forall item ensures Returned(s.purchasing.supplierReturns, BillId(d), item) == 0 { NothingReturned(BillId(d), item); }
    forall i | 0 <= i < |lines| ensures check(lines[i]) == Accepted {
      TightFound(lines, lines, lines[i].productId);
    }
    PassedReturn(s, c, DealBranch(d), BillId(d), lines);
    var note := ReturnNoteOf(s, c, DealBranch(d), bill, BillId(d), lines);
    forall item
      ensures Returned(s.purchasing.supplierReturns[c.ids(0) := note], BillId(d), item) == Sum(lines, Ordered(item))
    {
      SumMapInsert(s.purchasing.supplierReturns, c.ids(0), note, ReturnedUnits(BillId(d), item));
      assert ReturnedUnits(BillId(d), item)(note) == Sum(lines, Ordered(item));
      assert Returned(s.purchasing.supplierReturns, BillId(d), item) == 0;
    }
  }

  lemma {:induction false} NothingReturned(billId: Id, item: Id)
    ensures Returned(map[], billId, item) == 0
  {
  }

  /**
   * For every request that repeats a product there is a consistent state, reached by a run if the product ids could have
   * been handed out, in which it is accepted and more of the product comes back than was invoiced in all.
   */
  lemma RepeatedReturnOverruns(lines: seq<Line>, i: nat, j: nat)
    requires PositiveLines(lines) && i < j < |lines| && lines[i].productId == lines[j].productId
    ensures var d := TightDeal(lines);
            var o := SendBack(Invoiced(d), NewCall(d.k + 5), DealBranch(d), BillId(d), lines);
            && Consistent(Invoiced(d)) && ReturnsBounded(Invoiced(d).purchasing)
            && FreshIds(Invoiced(d), NewCall(d.k + 5).ids)
            && ((forall k :: 0 <= k < |lines| ==> NoColon(lines[k].productId)) ==> Reached(Invoiced(d), 0))
            && o.verdict == Accepted && !ReturnsBounded(o.state.purchasing)
            && Returned(o.state.purchasing.supplierReturns, BillId(d), lines[i].productId)
                 > Sum(Bare(d.lines), Ordered(lines[i].productId))
  {
    hide Sum, Map, Consistent, FreshIds, Reached, Tight, Largest, Longest, StockOf, Returned, SendBack, FindLine,
        TightDeal, Sensible, Zeros;
    var d, item := TightDeal(lines), lines[i].productId;
    TightIsSensible(lines);
    TightReturnPasses(lines);
    StagesAreOpen(d, DealOrder(d, NotRequested, None, None));
    InvoicedIsReached(d, 0);
    if forall k :: 0 <= k < |lines| ==> NoColon(lines[k].productId) { TightShopIsReached(lines); }
    UnreturnedIsBounded(d);
    TightTotals(lines, item);
    RepeatedExceeds(lines, item);
    var q := SendBack(Invoiced(d), NewCall(d.k + 5), DealBranch(d), BillId(d), lines).state.purchasing;
    assert !WithinInvoice(q.purchaseInvoices[BillId(d)], BillId(d), q.supplierReturns);
  }

  lemma {:induction false} TightTotals(lines: seq<Line>, item: Id)
    requires Names(lines, item)
    ensures Sum(Bare(TightDeal(lines).lines), Ordered(item)) == InvoicedUnits(TightDeal(lines).lines, item)
         == Largest(lines, item)
  {
    hide Sum, Tight, Largest, Longest, StockOf, FindLine;
    TightFound(lines, lines, item);
  }

  lemma {:induction false} TightShopIsReached(lines: seq<Line>)
    requires forall k :: 0 <= k < |lines| ==> NoColon(lines[k].productId)
    ensures Reached(Shop(TightDeal(lines).k, TightDeal(lines).stock), 0)
  {
    hide Reached, StockOf, Tight, Longest;
    ShopIsReached(Longest(lines), Map(lines, Untaxed()), 0);
  }

  lemma UnreturnedIsBounded(d: Deal)
    requires Sensible(d)
    ensures ReturnsBounded(Invoiced(d).purchasing)
  {
    hide Sum, SumMap, Map, PurchaseTotals, NextNumber, Advance, Zeros, FindLine;
    SensibleCosts(d);
    forall item ensures Returned(map[], BillId(d), item) <= InvoicedUnits(d.lines, item) {
      NothingReturned(BillId(d), item);
      FoundLine(d.lines, item);
    }
  }

  /** In every consistent state in which it is accepted, the return keeps every invoice within its quantities. */
  ghost predicate AlwaysWithin(lines: seq<Line>)
  {
    forall s: State, c: Call, branch: Id, bill: Id ::
      Consistent(s) && ReturnsBounded(s.purchasing) && FreshIds(s, c.ids)
      && SendBack(s, c, branch, bill, lines).verdict == Accepted ==>
        ReturnsBounded(SendBack(s, c, branch, bill, lines).state.purchasing)
  }

  /**
   * The handler checks every line against what earlier requests returned, not against the other lines of the same
   * request. So a return request always keeps within the invoiced quantities exactly when it names no product twice.
   */
  lemma ReturnBoundExact(lines: seq<Line>)
    requires PositiveLines(lines)
    ensures AlwaysWithin(lines) <==> DistinctProducts(lines)
  {
    hide Consistent, ReturnsBounded, SendBack, Invoiced, TightDeal, Returned, Sum;
    if DistinctProducts(lines) {
      forall s: State, c: Call, branch: Id, bill: Id |
        Consistent(s) && ReturnsBounded(s.purchasing) && FreshIds(s, c.ids)
        && SendBack(s, c, branch, bill, lines).verdict == Accepted
        ensures ReturnsBounded(SendBack(s, c, branch, bill, lines).state.purchasing)
      {
        assert Unused(s, c.ids(0));
        SendBackStaysBounded(s, c, branch, bill, lines);
      }
    } else {
      var i, j :| 0 <= i < j < |lines| && lines[i].productId == lines[j].productId;
      RepeatedReturnOverruns(lines, i, j);
    }
  }

  // ---- tax rates ----

  /** An untaxed and a taxed product; the second one at a rate below -100% makes up for the first on an invoice. */
  function MixedDeal(rate: int): Deal
  {
    Deal(3, StockOf([Item("0", 0), Item("00", rate)]),
         [OrderLine("0", 100, -10000 - rate), OrderLine("00", 100, 10000)])
  }

  const RETURNED := [Line("00", 100)]

  lemma AmountOfOne(c: int)
    ensures Amount(100, c) == c
  {
    Nearest(100 * c, 100);
  }

  lemma TaxOfHundred(rate: int)
    ensures TaxOn(10000, rate) == rate
  {
    Nearest(10000 * rate, 10000);
  }

  lemma MixedStock(rate: int)
    ensures MixedDeal(rate).stock == map["0" := Product("", PRICE, 0), "00" := Product("", PRICE, rate)]
  {
    var items := [Item("0", 0), Item("00", rate)];
    assert items[..1] == [items[0]] && [items[0]][..0] == [];
    assert StockOf([items[0]]) == map["0" := Product("", PRICE, 0)];
    assert "0" != "00" by { assert |"0"| != |"00"|; }
  }

  lemma MixedIsSensible(rate: int)
    requires rate < LOWEST_RATE
    ensures Sensible(MixedDeal(rate)) && Reached(Shop(3, MixedDeal(rate).stock), rate)
  {
    hide Reached, StockOf;
    MixedStock(rate);
    ShopIsReached(3, [Item("0", 0), Item("00", rate)], rate);
  }

  /** Together the two lines cost nothing, and the second alone costs less than nothing. */
  lemma MixedTotals(rate: int)
    ensures var d := MixedDeal(rate);
            && PurchaseTotals(None, None, Map(d.lines, Costed(d.stock))).grandTotal == 0
            && PurchaseTotals(None, None, Map(RETURNED, ReturnCost(d.stock, d.lines))).grandTotal == 10000 + rate
  {
    hide Amount, TaxOn, StockOf, LineCgst, LineSgst, LineIgst;
    var d := MixedDeal(rate);
    MixedStock(rate);
    var first, second := CostLine(100, -10000 - rate, 0), CostLine(100, 10000, rate);
    assert Map(d.lines, Costed(d.stock)) == [first] + [second];
    assert FindLine(d.lines, "00") == Some(d.lines[1]) by { assert d.lines[1..][0] == d.lines[1]; }
    assert Map(RETURNED, ReturnCost(d.stock, d.lines)) == [second];
    AmountOfOne(-10000 - rate);
    AmountOfOne(10000);
    TaxOfHundred(rate);
    NoTax(-10000 - rate);
    OneAndTwo(first, second, LineSubtotal());
    OneAndTwo(first, second, LineTaxTotal());
  }

  lemma NoTax(amount: int)
    ensures TaxOn(amount, 0) == 0
  {
  }

  lemma OneAndTwo(first: CostLine, second: CostLine, f: CostLine -> int)
    ensures Sum([second], f) == f(second) && Sum([first] + [second], f) == f(first) + f(second)
  {
    assert [first][..0] == [] && [second][..0] == [];
    SumSnoc([first], second, f);
  }

  /** The state after the second product went back. */
  ghost function Reopened(rate: int): State
  {
    var d := MixedDeal(rate);
    SendBack(Invoiced(d), NewCall(8), DealBranch(d), BillId(d), RETURNED).state
  }

  lemma MixedReturnPasses(rate: int)
    ensures var d := MixedDeal(rate);
            AllPass(DealBill(d), BillId(d), map[], d.stock, RETURNED)
  {
    hide SumMap, StockOf, PurchaseTotals, NextNumber, Zeros, Map;
    var d := MixedDeal(rate);
    MixedStock(rate);
    assert FindLine(d.lines, "00") == Some(d.lines[1]) by { assert d.lines[1..][0] == d.lines[1]; }
    NothingReturned(BillId(d), "00");
  }

  lemma MixedNote(rate: int)
    ensures var d := MixedDeal(rate);
            ReturnNoteOf(Invoiced(d), NewCall(8), DealBranch(d), DealBill(d), BillId(d), RETURNED).totals.grandTotal
              == 10000 + rate
  {
    hide Map, PurchaseTotals, NextNumber, Advance, Zeros, StockOf, ReturnCost;
    MixedTotals(rate);
    DealIds(MixedDeal(rate));
  }

  lemma ReturnCredits(s: State, c: Call, branch: Id, billId: Id, lines: seq<Line>)
    requires billId in s.purchasing.purchaseInvoices && branch in s.registry.branches
    requires s.purchasing.purchaseInvoices[billId].supplierId in s.registry.suppliers
    requires AllPass(s.purchasing.purchaseInvoices[billId], billId, s.purchasing.supplierReturns, s.registry.products,
                     lines)
    requires c.ids(0) !in s.purchasing.supplierReturns
    ensures var note := ReturnNoteOf(s, c, branch, s.purchasing.purchaseInvoices[billId], billId, lines);
            var q := SendBack(s, c, branch, billId, lines).state.purchasing;
            && Credited(q, billId) == Credited(s.purchasing, billId) + note.totals.grandTotal
            && Paid(q, billId) == Paid(s.purchasing, billId)
  {
    hide SumMap, SendBack, AllPass, PurchaseTotals, NextNumber;
    PassedReturn(s, c, branch, billId, lines);
    SumMapInsert(s.purchasing.supplierReturns, c.ids(0),
                 ReturnNoteOf(s, c, branch, s.purchasing.purchaseInvoices[billId], billId, lines), CreditFor(billId));
  }

  lemma NothingSettled(d: Deal)
    ensures var p := Invoiced(d).purchasing; Credited(p, BillId(d)) == 0 && Paid(p, BillId(d)) == 0
  {
    SumMapZero(Invoiced(d).purchasing.supplierReturns, CreditFor(BillId(d)));
    SumMapZero(Invoiced(d).purchasing.supplierPayments, PaidFor(BillId(d)));
  }

  lemma MixedReturnIsAccepted(rate: int)
    ensures var d := MixedDeal(rate);
            var q := Reopened(rate).purchasing;
            && SendBack(Invoiced(d), NewCall(8), DealBranch(d), BillId(d), RETURNED).verdict == Accepted
            && q.purchaseInvoices == map[BillId(d) := DealBill(d)]
            && Credited(q, BillId(d)) == 10000 + rate && Paid(q, BillId(d)) == 0
  {
    hide Sum, SumMap, Map, PurchaseTotals, NextNumber, Advance, StockOf, Zeros, SendBack, AllPass, ReturnNoteOf,
        Credited, Paid;
    var d := MixedDeal(rate);
    DealIds(d);
    MixedNote(rate);
    MixedReturnPasses(rate);
    NothingSettled(d);
    PassedReturn(Invoiced(d), NewCall(8), DealBranch(d), BillId(d), RETURNED);
    ReturnCredits(Invoiced(d), NewCall(8), DealBranch(d), BillId(d), RETURNED);
  }

  /** The invoice totals nothing and owes nothing, but after the return it owes something. */
  lemma ReturnReopens(rate: int)
    requires rate < LOWEST_RATE
    ensures var d := MixedDeal(rate);
            var p, q := Invoiced(d).purchasing, Reopened(rate).purchasing;
            && BillId(d) in p.purchaseInvoices && BillId(d) in q.purchaseInvoices
            && q.purchaseInvoices[BillId(d)].totals.grandTotal == 0
            && Owed(p, BillId(d)) == 0 && Owed(q, BillId(d)) == -10000 - rate > 0
  {
    hide SumMap, Map, PurchaseTotals, NextNumber, Advance, StockOf, Zeros, Reopened, Credited, Paid;
    MixedTotals(rate);
    NothingSettled(MixedDeal(rate));
    MixedReturnIsAccepted(rate);
  }

  lemma ReopenedIsOpen(rate: int)
    requires rate < LOWEST_RATE
    ensures FreshIds(Reopened(rate), NewCall(9).ids)
  {
    hide Sum, SumMap, Map, PurchaseTotals, NextNumber, Advance, StockOf, Zeros, FreshIds, SendBack, AllPass;
    var d := MixedDeal(rate);
    MixedIsSensible(rate);
    MixedReturnPasses(rate);
    DealIds(d);
    PassedReturn(Invoiced(d), NewCall(8), DealBranch(d), BillId(d), RETURNED);
    ZerosAreDistinct(8);
    assert NewCall(8).ids(0) == Zeros(8);
    ShopShape(rate);
    forall n: nat | n >= 9 ensures Unused(Reopened(rate), Zeros(n)) {
      ZerosAreDistinct(n);
    }
    NewCallIsFresh(Reopened(rate), 9);
  }

  /** A return touches purchasing, the ledger and the counters only. */
  lemma ShopShape(rate: int)
    ensures var s, t := Invoiced(MixedDeal(rate)), Reopened(rate);
            t == s.(purchasing := t.purchasing, counters := t.counters, ledger := t.ledger)
  {
    hide SendBack, Invoiced;
  }

  lemma BillingIsServed(s: State, c: Call, r: Request)
    requires s.registry.tenants == map[] && IsBilling(r) && ValidPayload(r)
    ensures Serve(s, c, r) == ApplyBilling(s, c, r)
  {
    hide ApplyBilling, ValidPayload;
  }

  lemma ReturnLeads(rate: int)
    requires rate < LOWEST_RATE
    ensures var d := MixedDeal(rate);
            Leads(Invoiced(d), NewCall(8), ReturnToSupplier(DealBranch(d), BillId(d), RETURNED), Reopened(rate))
  {
    hide SendBack, Invoiced, MixedDeal, FreshIds, Serve, Sensible, WithOrder, Received, DealOrder, DealBill, NewCall,
        Credited, Paid;
    var d := MixedDeal(rate);
    MixedIsSensible(rate);
    MixedK(rate);
    MixedReturnIsAccepted(rate);
    StagesAreOpen(d, DealOrder(d, NotRequested, None, None));
    InvoicedRegistry(d);
    BillingIsServed(Invoiced(d), NewCall(8), ReturnToSupplier(DealBranch(d), BillId(d), RETURNED));
  }

  /** The state after the amount that came to be owed was paid as well. */
  ghost function Overpaid(rate: int): State
  {
    var d := MixedDeal(rate);
    Pay(Reopened(rate), NewCall(9), DealBranch(d), BillId(d), -10000 - rate, "cash").state
  }

  lemma PaymentLeads(rate: int)
    requires rate < LOWEST_RATE
    ensures var d := MixedDeal(rate);
            && Leads(Reopened(rate), NewCall(9), PaySupplier(DealBranch(d), BillId(d), -10000 - rate, "cash"),
                     Overpaid(rate))
            && Overpaid(rate).purchasing.purchaseInvoices == Reopened(rate).purchasing.purchaseInvoices
            && Paid(Overpaid(rate).purchasing, BillId(d)) == -10000 - rate
  {
    hide SendBack, FreshIds, SumMap, Invoiced, Reopened, MixedDeal, Serve, NextNumber, Advance, PurchaseTotals, Map;
    var d := MixedDeal(rate);
    ReopenedIsOpen(rate);
    ReturnReopens(rate);
    MixedReturnIsAccepted(rate);
    ShopShape(rate);
    InvoicedRegistry(d);
    BillingIsServed(Reopened(rate), NewCall(9), PaySupplier(DealBranch(d), BillId(d), -10000 - rate, "cash"));
    assert Unused(Reopened(rate), NewCall(9).ids(0)) by { FirstIsUnused(Reopened(rate), NewCall(9)); }
    var p := Reopened(rate).purchasing;
    SumMapInsert(p.supplierPayments, NewCall(9).ids(0),
                 PaymentOf(Reopened(rate), NewCall(9), DealBranch(d), BillId(d), -10000 - rate, "cash"),
                 PaidFor(BillId(d)));
  }

  lemma FirstIsUnused(s: State, c: Call)
    requires FreshIds(s, c.ids)
    ensures Unused(s, c.ids(0))
  {
  }

  lemma InvoicedRegistry(d: Deal)
    ensures Invoiced(d).registry == Shop(d.k, d.stock).registry
  {
  }

  // ---- the exact floor ----

  ghost predicate NeverOverpaid(p: Purchasing)
  {
    forall b :: b in p.purchaseInvoices ==> Paid(p, b) <= Max(0, p.purchaseInvoices[b].totals.grandTotal)
  }

  /** No invoice ever owes more than it did at an earlier point of the run. */
  ghost predicate NeverReopens(ws: seq<World>)
  {
    forall i, j :: 0 <= i <= j < |ws| ==> OweNoMore(ws[i].mem.purchasing, ws[j].mem.purchasing)
  }

  /** With a product taxed below -100% a settled invoice can come to owe money again, and be paid beyond its total. */
  lemma LowRateOverpays(rate: int)
    requires rate < LOWEST_RATE
    ensures Reached(Invoiced(MixedDeal(rate)), rate) && Reached(Reopened(rate), rate) && Reached(Overpaid(rate), rate)
    ensures !OweNoMore(Invoiced(MixedDeal(rate)).purchasing, Reopened(rate).purchasing)
    ensures !NeverOverpaid(Overpaid(rate).purchasing)
  {
    hide Reached, Leads, Invoiced, Reopened, Overpaid, Owed, Paid, Sensible, MixedDeal;
    var d := MixedDeal(rate);
    MixedIsSensible(rate);
    MixedK(rate);
    InvoicedIsReached(d, rate);
    ReturnLeads(rate);
    LeadsOn(Invoiced(d), NewCall(8), ReturnToSupplier(DealBranch(d), BillId(d), RETURNED), Reopened(rate), rate);
    PaymentLeads(rate);
    LeadsOn(Reopened(rate), NewCall(9), PaySupplier(DealBranch(d), BillId(d), -10000 - rate, "cash"), Overpaid(rate), rate);
    ReturnReopens(rate);
  }

  lemma MixedK(rate: int)
    ensures MixedDeal(rate).k == 3
  {
  }

  /** The run that ends with the return reopens the invoice. */
  lemma LowRateReopens(rate: int)
    requires rate < LOWEST_RATE
    ensures exists ws: seq<World>, es: seq<Event> :: IsRun(ws, es) && RatesFrom(es, rate) && !NeverReopens(ws)
  {
    hide Leads, IsRun, Invoiced, Reopened, Overpaid, OweNoMore, MixedDeal, Serve, FreshIds, RateFrom;
    var d := MixedDeal(rate);
    LowRateOverpays(rate);
    ReturnLeads(rate);
    var ws: seq<World>, es: seq<Event> :|
      |ws| == |es| + 1 && IsRun(ws, es) && RatesFrom(es, rate) && ws[|es|].mem == Invoiced(d);
    var r := ReturnToSupplier(DealBranch(d), BillId(d), RETURNED);
    LeadsUnfolds(Invoiced(d), NewCall(8), r, Reopened(rate));
    var w := Extend(ws, es, NewCall(8), r);
    var ws', es' := ws + [w], es + [Arrived(NewCall(8), r)];
    assert RatesFrom(es', rate) by { assert RateFrom(r, rate) by { ReturnsNameNoRate(r, rate); } }
    assert ws'[|es|].mem == Invoiced(d) && ws'[|es| + 1].mem == Reopened(rate);
  }

  lemma ReturnsNameNoRate(r: Request, floor: int)
    requires r.ReturnToSupplier?
    ensures RateFrom(r, floor)
  {
  }

  lemma LeadsUnfolds(s: State, c: Call, r: Request, t: State)
    requires Leads(s, c, r, t)
    ensures FreshIds(s, c.ids) && Serve(s, c, r) == Outcome(Accepted, t)
  {
    hide FreshIds, Serve;
  }

  lemma HighRateIsSafe(ws: seq<World>, es: seq<Event>, floor: int)
    requires IsRun(ws, es) && RatesFrom(es, floor) && floor >= LOWEST_RATE
    ensures NeverReopens(ws) && forall i :: 0 <= i < |ws| ==> NeverOverpaid(ws[i].mem.purchasing)
  {
    hide IsRun, OweNoMore, Paid, NotesOk, SlipsOk, RatesOk;
    assert forall k :: 0 <= k < |es| ==> SaneEvent(es[k]);
    forall i | 0 <= i < |ws| ensures NeverOverpaid(ws[i].mem.purchasing) { RunsStaySolvent(ws, es, i); }
    forall i, j | 0 <= i <= j < |ws| ensures OweNoMore(ws[i].mem.purchasing, ws[j].mem.purchasing) {
      RunsOweNoMore(ws, es, i, j);
    }
  }

  /**
   * Over all runs whose products are taxed at `floor` or more, no invoice is ever paid beyond its total, and none ever
   * owes more than before, exactly when `floor` is at least -100%.
   */
  lemma RateFloorExact(floor: int)
    ensures (forall s :: Reached(s, floor) ==> NeverOverpaid(s.purchasing)) <==> floor >= LOWEST_RATE
    ensures (forall ws: seq<World>, es: seq<Event> :: IsRun(ws, es) && RatesFrom(es, floor) ==> NeverReopens(ws))
       <==> floor >= LOWEST_RATE
  {
    hide IsRun, RatesFrom, NeverOverpaid, NeverReopens, Overpaid;
    if floor >= LOWEST_RATE {
      forall ws: seq<World>, es: seq<Event> | IsRun(ws, es) && RatesFrom(es, floor) ensures NeverReopens(ws) {
        HighRateIsSafe(ws, es, floor);
      }
      forall s | Reached(s, floor) ensures NeverOverpaid(s.purchasing) {
        var ws: seq<World>, es: seq<Event> :|
          |ws| == |es| + 1 && IsRun(ws, es) && RatesFrom(es, floor) && ws[|es|].mem == s;
        HighRateIsSafe(ws, es, floor);
      }
    } else {
      LowRateOverpays(floor);
      LowRateReopens(floor);
    }
  }
}
