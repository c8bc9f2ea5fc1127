/** Reachable states, and how a chosen purchase gets into one. */
module Scenarios {
  import opened Folds
  import opened Inventory
  import opened Entities
  import opened Taxes
  import opened Numbering
  import opened StateModel
  import opened Handlers
  import opened Frames
  import opened LedgerInvariant
  import opened TillInvariants
  import opened ChainInvariant
  import opened SettlementInvariant
  import opened NumberInvariant
  import opened Consistency
  import opened Middleware
  import opened Crashes
  import opened CustomerTotals
  import opened Runs

  /** No product is created with a tax rate below `floor`. */
  predicate RateFrom(r: Request, floor: int) { r.CreateProduct? ==> r.taxRate >= floor }

  ghost predicate RatesFrom(es: seq<Event>, floor: int)
  {
    forall k :: 0 <= k < |es| && es[k].Arrived? ==> RateFrom(es[k].request, floor)
  }

  /** Some run in which no product is taxed below `floor` ends with `s` in memory. */
  ghost predicate Reached(s: State, floor: int)
  {
    exists ws: seq<World>, es: seq<Event> ::
      |ws| == |es| + 1 && IsRun(ws, es) && RatesFrom(es, floor) && ws[|es|].mem == s
  }

  // ---- extending a run ----

  lemma {:induction false} KeysListed<K, V>(m: map<K, V>) returns (ks: seq<K>)
    ensures NoDuplicates(ks) && forall k :: k in m <==> k in ks
    decreases |m|
  {
    if m == map[] {
      ks := [];
    } else {
      var k :| k in m;
      var js := KeysListed(m - {k});
      ks := js + [k];
      assert forall j :: j in m <==> j in m - {k} || j == k;
    }
  }

  lemma ListingExists<K, V>(m: map<K, V>)
    ensures exists ks: seq<K>, xs: seq<V> :: Listing(m, ks, xs)
  {
    var ks := KeysListed(m);
    assert Listing(m, ks, seq(|ks|, i requires 0 <= i < |ks| => m[ks[i]]));
  }

  lemma CountersListed(m: Counters)
    ensures exists ks: seq<(string, string)>, xs: seq<CounterEntry> :: ListsCounters(m, ks, xs)
  {
    var ks := KeysListed(m);
    assert ListsCounters(m, ks, seq(|ks|, i requires 0 <= i < |ks| => CounterEntry(ks[i].0, ks[i].1, m[ks[i]])));
  }

  /** Every state can be saved. */
  lemma SnapshotExists(s: State)
    ensures exists saved :: SnapshotOf(s, saved)
  {
    hide Listing, ListsCounters;
    ListingExists(s.registry.catalogOverrides);
    ListingExists(s.registry.reorderRules);
    CountersListed(s.counters);
    var ks, xs :| Listing(s.registry.catalogOverrides, ks, xs);
    var js, ys :| Listing(s.registry.reorderRules, js, ys);
    var is_, zs :| ListsCounters(s.counters, is_, zs);
    assert SnapshotOf(s, Snapshot(WithoutLists(s), xs, ys, zs));
  }

  /** A request that is not refused extends the run it arrives in. */
  lemma Extend(ws: seq<World>, es: seq<Event>, c: Call, r: Request) returns (w: World)
    requires IsRun(ws, es) && FreshIds(ws[|es|].mem, c.ids) && Serve(ws[|es|].mem, c, r).verdict != Refused
    ensures IsRun(ws + [w], es + [Arrived(c, r)]) && w.mem == Serve(ws[|es|].mem, c, r).state
  {
    hide FreshIds, Serve, SnapshotOf;
    var o := Serve(ws[|es|].mem, c, r);
    SnapshotExists(o.state);
    var saved :| SnapshotOf(o.state, saved);
    w := World(o.state, if o.verdict == Accepted then Some(saved) else ws[|es|].disk);
    var ws', es' := ws + [w], es + [Arrived(c, r)];
    forall i | 0 <= i < |es'| ensures Step(ws'[i], es'[i], ws'[i + 1]) {
      if i < |es| { assert Step(ws[i], es[i], ws[i + 1]); }
    }
  }

  /** From `s` the request is accepted and leads to `t`. */
  ghost predicate Leads(s: State, c: Call, r: Request, t: State)
  {
    FreshIds(s, c.ids) && Serve(s, c, r) == Outcome(Accepted, t)
  }

  lemma LeadsOn(s: State, c: Call, r: Request, t: State, floor: int)
    requires Leads(s, c, r, t) && RateFrom(r, floor)
    ensures Reached(s, floor) ==> Reached(t, floor)
    ensures Consistent(s) ==> Consistent(t)
  {
    hide FreshIds, Serve, IsRun, Consistent, RateFrom;
    if Reached(s, floor) {
      var ws: seq<World>, es: seq<Event> :|
        |ws| == |es| + 1 && IsRun(ws, es) && RatesFrom(es, floor) && ws[|es|].mem == s;
      var w := Extend(ws, es, c, r);
      assert RatesFrom(es + [Arrived(c, r)], floor);
      assert (ws + [w])[|es| + 1] == w;
    }
    if Consistent(s) { ServedIsConsistent(s, c, r); }
  }

  // ---- ids ----

  /** Ids of a length no id had before, after a first one of choice. */
  function From(first: Id, k: nat): Uuids { (n: nat) => if n == 0 then first else Zeros(k + n) }

  function NewCall(k: nat): Call { Call("", From(Zeros(k), k), 0) }

  lemma {:induction false} ZerosAreDistinct(k: nat)
    ensures |Zeros(k)| == k && NoColon(Zeros(k))
  {
    if k > 0 { ZerosAreDistinct(k - 1); }
  }

  lemma FromIsFresh(s: State, first: Id, k: nat)
    requires Unused(s, first) && |first| <= k && forall n: nat :: n >= k ==> Unused(s, Zeros(n))
    ensures FreshIds(s, From(first, k))
  {
    hide Unused;
    forall m, n | m != n ensures From(first, k)(m) != From(first, k)(n) {
      ZerosAreDistinct(k + m);
      ZerosAreDistinct(k + n);
      if m == 0 { assert From(first, k)(m) == first; }
      if n == 0 { assert From(first, k)(n) == first; }
    }
  }

  lemma NewCallIsFresh(s: State, k: nat)
    requires forall n: nat :: n >= k ==> Unused(s, Zeros(n))
    ensures FreshIds(s, NewCall(k).ids)
  {
    hide Unused;
    ZerosAreDistinct(k);
    FromIsFresh(s, Zeros(k), k);
  }

  // ---- a branch, a supplier and products ----

  datatype Item = Item(id: Id, rate: int)

  const PRICE := 100

  function StockOf(items: seq<Item>): map<Id, Product>
  {
    if |items| == 0 then map[]
    else
      var n := |items| - 1;
      var stock := StockOf(items[..n]);
      if items[n].id in stock then stock else stock[items[n].id := Product("", PRICE, items[n].rate)]
  }

  lemma {:induction false} StockKeys(items: seq<Item>, id: Id)
    ensures id in StockOf(items) <==> exists i :: 0 <= i < |items| && items[i].id == id
  {
    if |items| > 0 {
      var n := |items| - 1;
      StockKeys(items[..n], id);
      assert forall i :: 0 <= i < n ==> items[..n][i] == items[i];
    }
  }

  /** A branch and a supplier under two ids of length `k` and `k + 1`, and a catalogue. */
  function Shop(k: nat, stock: map<Id, Product>): State
  {
    EMPTY.(registry := EMPTY.registry.(branches := map[Zeros(k) := Branch("", None)],
                                       suppliers := map[Zeros(k + 1) := Supplier("", "", None, 0)], products := stock))
  }

  predicate Short(stock: map<Id, Product>, k: nat) { forall id :: id in stock ==> |id| < k }

  lemma ShopIsOpen(k: nat, stock: map<Id, Product>, id: Id)
    requires NoColon(id) && id != Zeros(k) && id != Zeros(k + 1) && id !in stock
    ensures Unused(Shop(k, stock), id)
  {
  }

  lemma ShopIsConsistent(k: nat, stock: map<Id, Product>)
    ensures Consistent(Shop(k, stock))
  {
    hide Numbered, LedgerReconciles, DrawerOk, ChainOk, CostsOk, SettlesBills;
    EmptyIsNumbered();
    EmptyReconciles();
    EmptyIsChained();
    ZerosAreDistinct(k);
  }

  function Branched(k: nat): State
  {
    EMPTY.(registry := EMPTY.registry.(branches := map[Zeros(k) := Branch("", None)]))
  }

  lemma BranchLeads(k: nat)
    ensures Leads(EMPTY, NewCall(k), CreateBranch(None), Branched(k))
  {
    hide FreshIds;
    forall n: nat | n >= k ensures Unused(EMPTY, Zeros(n)) { ZerosAreDistinct(n); }
    NewCallIsFresh(EMPTY, k);
    assert NewCall(k).ids(0) == Zeros(k);
  }

  lemma SupplierLeads(k: nat)
    ensures Leads(Branched(k), NewCall(k + 1), CreateSupplier("", None, 0), Shop(k, map[]))
  {
    hide FreshIds, Zeros;
    ZerosAreDistinct(k);
    forall n: nat | n >= k + 1 ensures Unused(Branched(k), Zeros(n)) { ZerosAreDistinct(n); }
    NewCallIsFresh(Branched(k), k + 1);
    assert NewCall(k + 1).ids(0) == Zeros(k + 1);
  }

  lemma BareShopIsReached(k: nat, floor: int)
    ensures Reached(Shop(k, map[]), floor)
  {
    hide Reached, Leads, Branched, Shop, Consistent;
    EmptyIsReached(floor);
    BranchLeads(k);
    LeadsOn(EMPTY, NewCall(k), CreateBranch(None), Branched(k), floor);
    SupplierLeads(k);
    LeadsOn(Branched(k), NewCall(k + 1), CreateSupplier("", None, 0), Shop(k, map[]), floor);
  }

  lemma EmptyIsReached(floor: int)
    ensures Reached(EMPTY, floor)
  {
    var none: seq<Event> := [];
    assert IsRun([START], none) && RatesFrom(none, floor) && [START][|none|].mem == EMPTY;
  }

  /** Any catalogue with ids that could have been handed out can be built up. */
  lemma {:induction false} ShopIsReached(k: nat, items: seq<Item>, floor: int)
    requires forall i :: 0 <= i < |items| ==> NoColon(items[i].id) && |items[i].id| < k && items[i].rate >= floor
    ensures Reached(Shop(k, StockOf(items)), floor)
  {
    hide Reached, Serve, FreshIds;
    if |items| == 0 {
      BareShopIsReached(k, floor);
    } else {
      var n := |items| - 1;
      ShopIsReached(k, items[..n], floor);
      if items[n].id !in StockOf(items[..n]) {
        ProductLeads(k, items[..n], items[n]);
        LeadsOn(Shop(k, StockOf(items[..n])), Call("", From(items[n].id, k + 2), 0), CreateProduct(PRICE, items[n].rate),
                Shop(k, StockOf(items)), floor);
      }
    }
  }

  lemma {:induction false} ProductLeads(k: nat, items: seq<Item>, x: Item)
    requires forall i :: 0 <= i < |items| ==> |items[i].id| < k
    requires NoColon(x.id) && |x.id| < k && x.id !in StockOf(items)
    ensures Leads(Shop(k, StockOf(items)), Call("", From(x.id, k + 2), 0), CreateProduct(PRICE, x.rate),
                  Shop(k, StockOf(items)[x.id := Product("", PRICE, x.rate)]))
  {
    hide FreshIds, Unused;
    var s := Shop(k, StockOf(items));
    ZerosAreDistinct(k);
    ZerosAreDistinct(k + 1);
    ShopIsOpen(k, StockOf(items), x.id);
    forall n: nat | n >= k + 2 ensures Unused(s, Zeros(n)) {
      ZerosAreDistinct(n);
      StockKeys(items, Zeros(n));
      ShopIsOpen(k, StockOf(items), Zeros(n));
    }
    FromIsFresh(s, x.id, k + 2);
    assert From(x.id, k + 2)(0) == x.id;
  }

  // ---- from an order to its invoice ----

  /** A purchase of `lines` for a shop whose own ids have length `k` and more. */
  datatype Deal = Deal(k: nat, stock: map<Id, Product>, lines: seq<OrderLine>)

  predicate Sensible(d: Deal)
  {
    Short(d.stock, d.k) && PositiveCosts(d.lines) && AllKnown(d.stock, d.lines)
  }

  function DealBranch(d: Deal): Id { Zeros(d.k) }
  function DealSupplier(d: Deal): Id { Zeros(d.k + 1) }
  function OrderId(d: Deal): Id { Zeros(d.k + 2) }
  function ReceiptId(d: Deal): Id { Zeros(d.k + 3) }
  function BillId(d: Deal): Id { Zeros(d.k + 4) }

  function DealOrder(d: Deal, status: Approval, asked: Option<Date>, decided: Option<Date>): PurchaseOrder
  {
    PurchaseOrder(OrderId(d), "", DealBranch(d), DealSupplier(d), d.lines, status, asked, decided, decided)
  }

  function WithOrder(d: Deal, order: PurchaseOrder): State
  {
    var s := Shop(d.k, d.stock);
    s.(purchasing := s.purchasing.(purchaseOrders := map[OrderId(d) := order]))
  }

  function Received(d: Deal): State
  {
    var s := WithOrder(d, DealOrder(d, Approved, Some(0), Some(0)));
    s.(purchasing := s.purchasing.(goodsReceipts := map[ReceiptId(d) :=
         GoodsReceipt(ReceiptId(d), "", DealBranch(d), OrderId(d), DealSupplier(d), 0, d.lines)]),
       ledger := s.ledger + Map(Bare(d.lines), Post(DealBranch(d), PurchaseReceipt, 1)))
  }

  function DealBill(d: Deal): PurchaseInvoice
  {
    PurchaseInvoice(BillId(d), "", DealBranch(d), ReceiptId(d), OrderId(d), DealSupplier(d), 0, 0, 0,
                    NextNumber(map[], PurchaseBill, DealBranch(d)),
                    PurchaseTotals(None, None, Map(d.lines, Costed(d.stock))), d.lines)
  }

  /** The state once the purchase is invoiced. */
  function Invoiced(d: Deal): State
  {
    var s := Received(d);
    s.(purchasing := s.purchasing.(purchaseInvoices := map[BillId(d) := DealBill(d)]),
       counters := Advance(map[], PurchaseBill, DealBranch(d)))
  }

  lemma DealIds(d: Deal)
    ensures |DealBranch(d)| == d.k && |DealSupplier(d)| == d.k + 1 && |OrderId(d)| == d.k + 2
    ensures |ReceiptId(d)| == d.k + 3 && |BillId(d)| == d.k + 4
  {
    hide Zeros;
    ZerosAreDistinct(d.k);
    ZerosAreDistinct(d.k + 1);
    ZerosAreDistinct(d.k + 2);
    ZerosAreDistinct(d.k + 3);
    ZerosAreDistinct(d.k + 4);
  }

  /** Ids longer than all ids of a purchase are fresh at each of its stages. */
  lemma StagesAreOpen(d: Deal, order: PurchaseOrder)
    requires Sensible(d)
    ensures FreshIds(Shop(d.k, d.stock), NewCall(d.k + 2).ids) && FreshIds(WithOrder(d, order), NewCall(d.k + 3).ids)
    ensures FreshIds(Received(d), NewCall(d.k + 4).ids) && FreshIds(Invoiced(d), NewCall(d.k + 5).ids)
  {
    hide Zeros, Map, PurchaseTotals, NextNumber, Advance, PositiveCosts, AllKnown, FreshIds;
    DealIds(d);
    forall n: nat | n >= d.k + 2
      ensures Unused(Shop(d.k, d.stock), Zeros(n)) && (n >= d.k + 3 ==> Unused(WithOrder(d, order), Zeros(n)))
      ensures (n >= d.k + 4 ==> Unused(Received(d), Zeros(n))) && (n >= d.k + 5 ==> Unused(Invoiced(d), Zeros(n)))
    {
      ZerosAreDistinct(n);
    }
    NewCallIsFresh(Shop(d.k, d.stock), d.k + 2);
    NewCallIsFresh(WithOrder(d, order), d.k + 3);
    NewCallIsFresh(Received(d), d.k + 4);
    NewCallIsFresh(Invoiced(d), d.k + 5);
  }

  lemma OrderLeads(d: Deal)
    requires Sensible(d)
    ensures Leads(Shop(d.k, d.stock), NewCall(d.k + 2), CreateOrder(DealBranch(d), DealSupplier(d), d.lines),
                  WithOrder(d, PurchaseOrder(OrderId(d), "", DealBranch(d), DealSupplier(d), d.lines, NotRequested, None,
                                             None, None)))
  {
    hide FreshIds, Zeros, Sensible;
    StagesAreOpen(d, DealOrder(d, NotRequested, None, None));
    assert NewCall(d.k + 2).ids(0) == OrderId(d);
    assert PositiveCosts(d.lines) by { SensibleCosts(d); }
  }

  lemma SensibleCosts(d: Deal)
    requires Sensible(d)
    ensures PositiveCosts(d.lines) && AllKnown(d.stock, d.lines)
  {
    hide PositiveCosts, AllKnown, Short;
  }

  lemma SubmissionLeads(d: Deal)
    requires Sensible(d)
    ensures Leads(WithOrder(d, DealOrder(d, NotRequested, None, None)), NewCall(d.k + 3),
                  SubmitOrder(DealBranch(d), OrderId(d)), WithOrder(d, DealOrder(d, PendingApproval, Some(0), None)))
  {
    hide FreshIds, Zeros, Sensible;
    StagesAreOpen(d, DealOrder(d, NotRequested, None, None));
  }

  lemma ApprovalLeads(d: Deal)
    requires Sensible(d)
    ensures Leads(WithOrder(d, DealOrder(d, PendingApproval, Some(0), None)), NewCall(d.k + 3),
                  DecideOrder(DealBranch(d), OrderId(d), true), WithOrder(d, DealOrder(d, Approved, Some(0), Some(0))))
  {
    hide FreshIds, Zeros, Sensible;
    StagesAreOpen(d, DealOrder(d, PendingApproval, Some(0), None));
  }

  lemma ReceiptLeads(d: Deal)
    requires Sensible(d)
    ensures Leads(WithOrder(d, DealOrder(d, Approved, Some(0), Some(0))), NewCall(d.k + 3),
                  CreateReceipt(DealBranch(d), OrderId(d)), Received(d))
  {
    hide FreshIds, Zeros, Sensible, Map;
    StagesAreOpen(d, DealOrder(d, Approved, Some(0), Some(0)));
    assert NewCall(d.k + 3).ids(0) == ReceiptId(d);
  }

  lemma BillLeads(d: Deal)
    requires Sensible(d)
    ensures Leads(Received(d), NewCall(d.k + 4), CreatePurchaseInvoice(DealBranch(d), ReceiptId(d)), Invoiced(d))
  {
    hide FreshIds, Zeros, Sensible, Map, PurchaseTotals, NextNumber, Advance, AllKnown;
    StagesAreOpen(d, DealOrder(d, Approved, Some(0), Some(0)));
    SensibleCosts(d);
    DealIds(d);
    assert NewCall(d.k + 4).ids(0) == BillId(d);
  }

  /** A sensible purchase can be ordered, approved, received and invoiced. */
  lemma InvoicedIsReached(d: Deal, floor: int)
    requires Sensible(d)
    ensures Reached(Shop(d.k, d.stock), floor) ==> Reached(Invoiced(d), floor)
    ensures Consistent(Invoiced(d))
  {
    hide Reached, Leads, Sensible, Shop, WithOrder, Received, Invoiced, Consistent;
    var asked, pending := DealOrder(d, NotRequested, None, None), DealOrder(d, PendingApproval, Some(0), None);
    var approved := DealOrder(d, Approved, Some(0), Some(0));
    ShopIsConsistent(d.k, d.stock);
    OrderLeads(d);
    LeadsOn(Shop(d.k, d.stock), NewCall(d.k + 2), CreateOrder(DealBranch(d), DealSupplier(d), d.lines),
            WithOrder(d, asked), floor);
    SubmissionLeads(d);
    LeadsOn(WithOrder(d, asked), NewCall(d.k + 3), SubmitOrder(DealBranch(d), OrderId(d)), WithOrder(d, pending), floor);
    ApprovalLeads(d);
    LeadsOn(WithOrder(d, pending), NewCall(d.k + 3), DecideOrder(DealBranch(d), OrderId(d), true), WithOrder(d, approved),
            floor);
    ReceiptLeads(d);
    LeadsOn(WithOrder(d, approved), NewCall(d.k + 3), CreateReceipt(DealBranch(d), OrderId(d)), Received(d), floor);
    BillLeads(d);
    LeadsOn(Received(d), NewCall(d.k + 4), CreatePurchaseInvoice(DealBranch(d), ReceiptId(d)), Invoiced(d), floor);
  }

  // ---- a sale that is lost or never counted ----

  const GOODS := [Item("0", 0)]
  const OPENED := Shop(2, StockOf(GOODS))
  const CUSTOMER := Zeros(4)
  const READY := OPENED.(selling := OPENED.selling.(customers := map[CUSTOMER := Customer("", None, 0, 0, None)]))
  const LOST_SALE := CreateSale(Zeros(2), Some(CUSTOMER), None, [Line("0", 100)], 0, "cash", Some("nowhere"))

  lemma CustomerLeads()
    ensures Leads(OPENED, NewCall(4), CreateCustomer(None), READY)
    ensures FreshIds(READY, NewCall(5).ids) && CustomersFaithful(READY.selling)
  {
    hide FreshIds;
    assert GOODS[..0] == [];
    ZerosAreDistinct(2);
    ZerosAreDistinct(3);
    ZerosAreDistinct(4);
    forall n: nat | n >= 4 ensures Unused(OPENED, Zeros(n)) { ZerosAreDistinct(n); }
    NewCallIsFresh(OPENED, 4);
    assert NewCall(4).ids(0) == CUSTOMER;
    forall n: nat | n >= 5 ensures Unused(READY, Zeros(n)) { ZerosAreDistinct(n); }
    NewCallIsFresh(READY, 5);
  }

  lemma ReadyIsReached()
    ensures Reached(READY, 0)
  {
    hide Reached, Leads, Shop, Consistent;
    ShopIsReached(2, GOODS, 0);
    CustomerLeads();
    LeadsOn(OPENED, NewCall(4), CreateCustomer(None), READY, 0);
  }

  lemma SaleIsUncountedThere()
    ensures Uncounted(READY, NewCall(5), LOST_SALE)
  {
    ZerosAreDistinct(2);
    ZerosAreDistinct(4);
    assert GOODS[..0] == [];
    FirstFaultAt([Line("0", 100)], PricingFault(CatalogueOf(READY), Zeros(2)), 1);
  }

  /**
   * A sale paid into a session that does not exist crashes after the sale was stored: memory no longer matches the
   * disk, and the customer's totals miss a stored sale.
   */
  lemma SomeRunsLoseSales()
    ensures exists ws: seq<World>, es: seq<Event> ::
              IsRun(ws, es) && !InSync(ws[|es|]) && !CustomersFaithful(ws[|es|].mem.selling)
  {
    hide IsRun, FreshIds, Serve, Uncounted, CustomersFaithful, Consistent, Ahead, Conclude, Leads, Shop, Restore,
        RatesFrom;
    ReadyIsReached();
    CustomerLeads();
    SaleIsUncountedThere();
    var ws: seq<World>, es: seq<Event> :|
      |ws| == |es| + 1 && IsRun(ws, es) && RatesFrom(es, 0) && ws[|es|].mem == READY;
    RunsStayConsistent(ws, es, |es|);
    assert StrandsWork(READY, NewCall(5), LOST_SALE) by { UncountedStrands(READY, NewCall(5), LOST_SALE); }
    StrandsExactly(READY, NewCall(5), LOST_SALE);
    CrashAndCustomers(READY, NewCall(5), LOST_SALE);
    var w := Extend(ws, es, NewCall(5), LOST_SALE);
    LastStep(ws + [w], es + [Arrived(NewCall(5), LOST_SALE)]);
    BoundaryIsExact(ws[|es|], NewCall(5), LOST_SALE, w);
  }

  lemma UncountedStrands(s: State, c: Call, r: Request)
    requires Uncounted(s, c, r)
    ensures StrandsWork(s, c, r)
  {
    hide StrandsWork;
  }

  lemma LastStep(ws: seq<World>, es: seq<Event>)
    requires IsRun(ws, es) && |es| > 0
    ensures |ws| == |es| + 1 && Step(ws[|es| - 1], es[|es| - 1], ws[|es|])
  {
    hide Step;
  }
}
