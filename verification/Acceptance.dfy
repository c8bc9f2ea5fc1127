/** Which requests succeed, in terms of what is stored before the call. */
module Acceptance {
  import opened Folds
  import opened Inventory
  import opened Entities
  import opened Numbering
  import opened StateModel
  import opened BatchTracking
  import opened Handlers
  import opened LedgerInvariant
  import opened TillInvariants
  import opened ChainInvariant
  import opened SettlementInvariant
  import opened NumberInvariant
  import opened Consistency
  import opened Crashes
  import opened Middleware
  import opened Runs
  import opened Lifecycles
  import opened TenantGate
  import opened Pricing

  predicate OwnOrder(s: State, c: Call, branch: Id, k: Id, status: set<Approval>)
  {
    && k in s.purchasing.purchaseOrders
    && var o := s.purchasing.purchaseOrders[k]; o.tenantId == c.tenantId && o.branchId == branch && o.status in status
  }

  predicate OwnReceipt(s: State, c: Call, branch: Id, k: Id)
  {
    && k in s.purchasing.goodsReceipts
    && var g := s.purchasing.goodsReceipts[k]; g.tenantId == c.tenantId && g.branchId == branch
  }

  predicate OwnBill(s: State, c: Call, branch: Id, k: Id)
  {
    && k in s.purchasing.purchaseInvoices
    && var v := s.purchasing.purchaseInvoices[k]; v.tenantId == c.tenantId && v.branchId == branch
  }

  predicate OwnDispute(s: State, c: Call, branch: Id, k: Id)
  {
    && k in s.purchasing.vendorDisputes
    && var d := s.purchasing.vendorDisputes[k]; d.tenantId == c.tenantId && d.branchId == branch && d.open
  }

  /** Line `j` is the first line with that product. */
  predicate FirstInvoiced(lines: seq<OrderLine>, productId: Id, j: int)
  {
    && 0 <= j < |lines| && lines[j].productId == productId
    && forall i :: 0 <= i < j ==> lines[i].productId != productId
  }

  /** The invoice has the product, and its first line of it has that much left after the notes stored so far. */
  ghost predicate Returnable(s: State, bill: Id, l: Line)
    requires bill in s.purchasing.purchaseInvoices
  {
    exists j :: FirstInvoiced(s.purchasing.purchaseInvoices[bill].lines, l.productId, j)
                && l.quantity + Returned(s.purchasing.supplierReturns, bill, l.productId)
                   <= s.purchasing.purchaseInvoices[bill].lines[j].quantity
  }

  /** What the lines of a return cost with tax at the rate of its first product. */
  ghost predicate Covers(s: State, sale: Sale, lines: seq<Line>, refund: int)
  {
    && |lines| > 0 && lines[0].productId in s.registry.products && refund <= sale.paymentAmount
    && exists returned :: AtSoldPrices(sale, lines, returned)
         && refund <= Sum(returned, LineValue()) + TaxAt(s, lines[0].productId, Sum(returned, LineValue()))
  }

  /** Everything a request needs to succeed. A caller can check it before the call. */
  ghost predicate InOrder(s: State, c: Call, r: Request)
  {
    match r
    case SetTenantStatus(target, _) => target in s.registry.tenants
    case SaveReorderRule(_, _, least, target) => least <= target
    case CloseCashSession(k, _) => k in s.selling.cashSessions && s.selling.cashSessions[k].open
    case SubmitOrder(branch, k) => OwnOrder(s, c, branch, k, {NotRequested, Rejected})
    case DecideOrder(branch, k, _) => OwnOrder(s, c, branch, k, {PendingApproval})
    case CreateReceipt(branch, k) =>
      && OwnOrder(s, c, branch, k, {Approved})
      && forall g :: g in s.purchasing.goodsReceipts ==> s.purchasing.goodsReceipts[g].orderId != k
    case RecordLots(branch, k, lots) =>
      && OwnReceipt(s, c, branch, k)
      && (forall l :: l in s.purchasing.batchLots ==> s.purchasing.batchLots[l].receiptId != k)
      && forall p :: ReceivedOf(s.purchasing.goodsReceipts[k].lines)(p) == BatchedOf(lots)(p)
    case CreatePurchaseInvoice(branch, k) =>
      && k in s.purchasing.goodsReceipts && branch in s.registry.branches
      && (forall v :: v in s.purchasing.purchaseInvoices ==> s.purchasing.purchaseInvoices[v].receiptId != k)
      && var g := s.purchasing.goodsReceipts[k];
         g.supplierId in s.registry.suppliers && forall l :: l in g.lines ==> l.productId in s.registry.products
    case OpenDispute(branch, receipt, invoice, _) =>
      || (invoice.None? && receipt.Some? && OwnReceipt(s, c, branch, receipt.value))
      || (receipt.None? && invoice.Some? && OwnBill(s, c, branch, invoice.value))
    case ResolveDispute(branch, k) => OwnDispute(s, c, branch, k)
    case WriteOffLot(branch, k, q) =>
      OwnLot(s, c.tenantId, branch, k) && LotsKnown(s, c.tenantId, branch) && q <= LeftInLot(s, c.tenantId, branch, k)
    case ReturnToSupplier(branch, k, lines) =>
      && k in s.purchasing.purchaseInvoices && branch in s.registry.branches
      && forall i :: 0 <= i < |lines| ==> Returnable(s, k, lines[i])
    case PaySupplier(branch, k, amount, _) => OwnBill(s, c, branch, k) && amount <= Owed(s.purchasing, k)
    case CreateSale(branch, customer, _, lines, _, _, session) =>
      && branch in s.registry.branches && (customer.Some? ==> customer.value in s.selling.customers)
      && |lines| > 0 && (forall i :: 0 <= i < |lines| ==> Sellable(s.registry, branch, lines[i].productId))
      && DrawerReady(s, session)
    case ExchangeSale(branch, sale, lines, replacements, _, session) =>
      && sale in s.selling.sales
      && (forall i :: 0 <= i < |lines| ==> WasSold(s.selling.sales[sale], lines[i].productId))
      && (forall i :: 0 <= i < |replacements| ==> Sellable(s.registry, branch, replacements[i].productId))
      && DrawerReady(s, session)
    case ReturnSale(branch, sale, lines, refund, _) =>
      sale in s.selling.sales && branch in s.registry.branches && Covers(s, s.selling.sales[sale], lines, refund)
    case ApproveRefund(k) => k in s.selling.saleReturns
    case _ => true
  }

  // ---- what a payload must satisfy ----

  function Quantities(lines: seq<Line>): seq<int> { Map(lines, LineAmount()) }
  function LineAmount(): Line -> int { (l: Line) => l.quantity }
  function LotAmount(): LotInput -> int { (l: LotInput) => l.quantity }
  function OrderAmount(): OrderLine -> int { (l: OrderLine) => l.quantity }
  function OrderCost(): OrderLine -> int { (l: OrderLine) => l.unitCost }

  /** The numbers of a request that must be positive: quantities, prices, costs, payments to suppliers. */
  function Positives(r: Request): seq<int>
  {
    match r
    case SaveOverride(_, _, price, _) => if price.Some? then [price.value] else []
    case SaveReorderRule(_, _, least, target) => [least, target]
    case CreateOrder(_, _, lines) => Map(lines, OrderAmount()) + Map(lines, OrderCost())
    case RecordLots(_, _, lots) => Map(lots, LotAmount())
    case CreateTransfer(_, _, lines) => Quantities(lines)
    case CreateSale(_, _, _, lines, _, _, _) => Quantities(lines)
    case ReturnSale(_, _, lines, _, _) => Quantities(lines)
    case ExchangeSale(_, _, lines, replacements, _, _) => Quantities(lines) + Quantities(replacements)
    case ReturnToSupplier(_, _, lines) => Quantities(lines)
    case PaySupplier(_, _, amount, _) => [amount]
    case WriteOffLot(_, _, quantity) => [quantity]
    case _ => []
  }

  /** Those that may be zero but not negative: terms, drawer amounts, counted figures, customers' money. */
  function NonNegatives(r: Request): seq<int>
  {
    match r
    case CreateSupplier(_, _, terms) => [terms]
    case OpenCashSession(_, amount) => [amount]
    case CloseCashSession(_, amount) => [amount]
    case CountStock(_, _, lines) => Quantities(lines)
    case CreateSale(_, _, _, _, amount, _, _) => [amount]
    case ReturnSale(_, _, _, refund, _) => [refund]
    case _ => []
  }

  /** Those numbers are as they must be, and the texts that must not be empty are not. */
  ghost predicate WellFormed(r: Request)
  {
    && (forall n :: n in Positives(r) ==> n >= 1) && (forall n :: n in NonNegatives(r) ==> n >= 0)
    && (r.OpenDispute? ==> r.disputeType != "")
    && (r.RecordLots? ==> |r.lots| > 0 && forall l :: l in r.lots ==> l.batchNumber != "")
  }

  lemma {:induction false} OrdersWellFormed(r: Request)
    requires IsOrdering(r)
    ensures ValidPayload(r) <==> WellFormed(r)
  {
    hide Map;
    if r.CreateOrder? {
      AllMapped(r.orderLines, OrderAmount(), 1);
      AllMapped(r.orderLines, OrderCost(), 1);
      InEither(Map(r.orderLines, OrderAmount()), Map(r.orderLines, OrderCost()), 1);
    }
    if r.RecordLots? { AllMapped(r.lots, LotAmount(), 1); }
  }

  lemma {:induction false} LinesAreWell(lines: seq<Line>)
    ensures PositiveLines(lines) <==> forall n :: n in Quantities(lines) ==> n >= 1
  {
    hide Map;
    AllMapped(lines, LineAmount(), 1);
    assert Quantities(lines) == Map(lines, LineAmount());
    assert forall i :: 0 <= i < |lines| ==> LineAmount()(lines[i]) == lines[i].quantity;
    if PositiveLines(lines) {
      assert forall i :: 0 <= i < |lines| ==> LineAmount()(lines[i]) >= 1;
    } else {
      assert exists i :: 0 <= i < |lines| && LineAmount()(lines[i]) < 1;
    }
  }

  lemma {:induction false} SalesWellFormed(r: Request)
    requires IsSelling(r) || IsRefund(r)
    ensures ValidPayload(r) <==> WellFormed(r)
  {
    hide Map;
    match r
    case CreateSale(_, _, _, lines, amount, _, _) =>
      LinesAreWell(lines);
      assert NonNegatives(r) == [amount] && Positives(r) == Quantities(lines);
      assert (forall n :: n in NonNegatives(r) ==> n >= 0) <==> amount >= 0 by { assert amount in NonNegatives(r); }
    case ReturnSale(_, _, lines, refund, _) =>
      LinesAreWell(lines);
      assert NonNegatives(r) == [refund] && Positives(r) == Quantities(lines);
      assert (forall n :: n in NonNegatives(r) ==> n >= 0) <==> refund >= 0 by { assert refund in NonNegatives(r); }
    case ExchangeSale(_, _, lines, replacements, _, _) =>
      LinesAreWell(lines);
      LinesAreWell(replacements);
      InEither(Quantities(lines), Quantities(replacements), 1);
    case _ =>
  }

  lemma {:induction false} OthersWellFormed(r: Request)
    requires !IsOrdering(r) && !IsSelling(r) && !IsRefund(r)
    ensures ValidPayload(r) <==> WellFormed(r)
  {
    hide Map;
    match r
    case CreateSupplier(_, _, terms) => assert terms in NonNegatives(r);
    case OpenCashSession(_, amount) => assert amount in NonNegatives(r);
    case CloseCashSession(_, amount) => assert amount in NonNegatives(r);
    case SaveOverride(_, _, price, _) => assert price.Some? ==> price.value in Positives(r);
    case SaveReorderRule(_, _, least, target) => assert least in Positives(r) && target in Positives(r);
    case PaySupplier(_, _, amount, _) => assert amount in Positives(r);
    case WriteOffLot(_, _, quantity) => assert quantity in Positives(r);
    case CreateTransfer(_, _, lines) => LinesAreWell(lines);
    case CountStock(_, _, lines) => AllMapped(lines, LineAmount(), 0);
    case ReturnToSupplier(_, _, lines) => LinesAreWell(lines);
    case _ =>
  }

  /** A payload passes validation exactly when it is well formed. */
  lemma ValidExactly(r: Request)
    ensures ValidPayload(r) <==> WellFormed(r)
  {
    hide ValidPayload, WellFormed;
    if IsOrdering(r) { OrdersWellFormed(r); }
    else if IsSelling(r) || IsRefund(r) { SalesWellFormed(r); }
    else { OthersWellFormed(r); }
  }

  lemma {:induction false} AllMapped<T>(xs: seq<T>, f: T -> int, least: int)
    ensures (forall n :: n in Map(xs, f) ==> n >= least) <==> forall i :: 0 <= i < |xs| ==> f(xs[i]) >= least
  {
    var ys := Map(xs, f);
    forall i | 0 <= i < |xs| ensures ys[i] == f(xs[i]) && ys[i] in ys {}
  }

  lemma InEither(xs: seq<int>, ys: seq<int>, least: int)
    ensures (forall n :: n in xs + ys ==> n >= least)
       <==> (forall n :: n in xs ==> n >= least) && (forall n :: n in ys ==> n >= least)
  {
    assert forall n :: n in xs + ys <==> n in xs || n in ys;
  }

  // ---- group by group ----

  lemma RegistryInOrder(s: State, c: Call, r: Request)
    ensures IsRegistry(r) ==> (ApplyRegistry(s, c, r).verdict == Accepted <==> InOrder(s, c, r))
    ensures IsParty(r) ==> (ApplyParty(s, c, r).verdict == Accepted <==> InOrder(s, c, r))
  {
  }

  lemma BranchInOrder(s: State, c: Call, r: Request)
    requires IsBranch(r)
    ensures ApplyBranch(s, c, r).verdict == Accepted <==> InOrder(s, c, r)
  {
  }

  lemma IntakeInOrder(s: State, c: Call, r: Request)
    requires r.RecordLots? && ValidPayload(r) && ChainOk(s.purchasing) && CostsOk(s.purchasing)
    ensures ApplyOrdering(s, c, r).verdict == Accepted <==> InOrder(s, c, r)
  {
    hide LotsMatch, StoreLots, ReceivedOf, BatchedOf, ChainOk;
    if OwnReceipt(s, c, r.branchId, r.receiptId) {
      MatchIsCover(s.purchasing.goodsReceipts[r.receiptId].lines, r.lots);
    }
    assert HasLots(s, r.receiptId) <==>
      !(forall l :: l in s.purchasing.batchLots ==> s.purchasing.batchLots[l].receiptId != r.receiptId);
  }

  lemma OrderingInOrder(s: State, c: Call, r: Request)
    requires IsOrdering(r) && !r.RecordLots?
    ensures ApplyOrdering(s, c, r).verdict == Accepted <==> InOrder(s, c, r)
  {
    hide Map;
    if r.CreateReceipt? {
      assert AlreadyReceived(s, r.orderId) <==>
        !(forall g :: g in s.purchasing.goodsReceipts ==> s.purchasing.goodsReceipts[g].orderId != r.orderId);
    }
  }

  lemma DisputeInOrder(s: State, c: Call, r: Request)
    requires IsDispute(r)
    ensures ApplyDispute(s, c, r).verdict == Accepted <==> InOrder(s, c, r)
  {
  }

  lemma InvoiceInOrder(s: State, c: Call, r: Request)
    requires r.CreatePurchaseInvoice? && ChainOk(s.purchasing)
    ensures ApplyBilling(s, c, r).verdict == Accepted <==> InOrder(s, c, r)
  {
    hide BillOf, Advance, BillsOk, LotsOk;
    var k := r.receiptId;
    if k in s.purchasing.goodsReceipts {
      var g := s.purchasing.goodsReceipts[k];
      ReceiptIsOwn(s.purchasing.purchaseOrders, s.purchasing.goodsReceipts, k);
      assert AllKnown(s.registry.products, g.lines) <==> forall l :: l in g.lines ==> l.productId in s.registry.products;
      assert AlreadyInvoiced(s, k) <==>
        !(forall v :: v in s.purchasing.purchaseInvoices ==> s.purchasing.purchaseInvoices[v].receiptId != k);
    }
  }

  lemma {:induction false} FirstInvoicedIsFound(all: seq<OrderLine>, lines: seq<OrderLine>, productId: Id, n: nat)
    requires n <= |all| && lines == all[n..] && forall i :: 0 <= i < n ==> all[i].productId != productId
    ensures var f := FindLine(lines, productId);
            && (f.None? ==> forall j :: !FirstInvoiced(all, productId, j))
            && (f.Some? ==> exists j :: FirstInvoiced(all, productId, j) && all[j] == f.value)
    decreases |lines|
  {
    if |lines| > 0 {
      if lines[0].productId == productId {
        assert FirstInvoiced(all, productId, n);
      } else {
        FirstInvoicedIsFound(all, lines[1..], productId, n + 1);
      }
    }
  }

  lemma ReturnLineInOrder(s: State, bill: Id, l: Line)
    requires bill in s.purchasing.purchaseInvoices
    requires forall x :: x in s.purchasing.purchaseInvoices[bill].lines ==> x.productId in s.registry.products
    ensures var v := s.purchasing.purchaseInvoices[bill];
            var check := SupplierReturnFault(v, bill, s.purchasing.supplierReturns, s.registry.products);
            check(l) == Accepted <==> Returnable(s, bill, l)
  {
    hide SumMap, FindLine;
    var lines := s.purchasing.purchaseInvoices[bill].lines;
    FirstInvoicedIsFound(lines, lines, l.productId, 0);
    FoundLine(lines, l.productId);
  }

  lemma {:induction false} SendBackInOrder(s: State, c: Call, r: Request)
    requires r.ReturnToSupplier? && Consistent(s)
    ensures ApplyBilling(s, c, r).verdict == Accepted <==> InOrder(s, c, r)
  {
    hide KeysOwn, BranchIds, TillFaithful, LedgerReconciles, ChainOk, CostsOk, SettlesBills, Numbered, Map, FirstFault,
         ReturnNoteOf, SupplierReturnFault, Advance, Returnable;
    var k := r.invoiceId;
    if k in s.purchasing.purchaseInvoices {
      var invoice := s.purchasing.purchaseInvoices[k];
      var check := SupplierReturnFault(invoice, k, s.purchasing.supplierReturns, s.registry.products);
      forall i | 0 <= i < |r.lines| ensures check(r.lines[i]) == Accepted <==> Returnable(s, k, r.lines[i]) {
        ReturnLineInOrder(s, k, r.lines[i]);
      }
    }
  }

  lemma PayInOrder(s: State, c: Call, r: Request)
    requires r.PaySupplier?
    ensures ApplyBilling(s, c, r).verdict == Accepted <==> InOrder(s, c, r)
  {
    hide SumMap, Advance, PaymentOf;
  }

  lemma StockInOrder(s: State, c: Call, r: Request)
    requires IsStock(r) && ValidPayload(r)
    ensures ApplyStock(s, c, r).verdict == Accepted <==> InOrder(s, c, r)
  {
    hide StoredRemaining, Stock, AfterTransfers, AfterCounts, CountResults;
    if r.WriteOffLot? {
      assert forall k :: OwnLot(s, c.tenantId, r.branchId, k)
                    <==> k in BranchLots(s.purchasing.batchLots, c.tenantId, r.branchId);
    }
  }

  lemma SellingInOrder(s: State, c: Call, r: Request)
    requires IsSelling(r) && Consistent(s)
    ensures ApplySelling(s, c, r).verdict == Accepted <==> InOrder(s, c, r)
  {
    hide Consistent, Sell, Swap, WasSold, Sellable, DrawerReady;
    match r
    case CreateSale(branch, customer, gstin, lines, payment, method_, session) =>
      SaleIsAccepted(s, c, branch, customer, gstin, lines, payment, method_, session);
    case ExchangeSale(branch, sale, lines, replacements, method_, session) =>
      ExchangeIsAccepted(s, c, branch, sale, lines, replacements, method_, session);
      if sale in s.selling.sales {
        forall p | WasSold(s.selling.sales[sale], p) ensures p in s.registry.products {
          SoldPriceIs(s.selling.sales[sale], p, 0);
          SoldIsKnown(s, sale, p);
        }
      }
  }

  function ReturnedLine(sale: Sale): Line -> SaleLine
  {
    (l: Line) => SaleLine(l.productId, l.quantity, SoldPrice(sale, l.productId))
  }

  lemma SoldPriceExists(sale: Sale, productId: Id)
    requires WasSold(sale, productId)
    ensures exists j :: FirstSold(sale, productId, j) && SoldPrice(sale, productId) == sale.lines[j].unitPrice
  {
    hide FindSaleLine;
    FirstSoldIsFound(sale, sale.lines, productId, 0);
  }

  lemma {:induction false} SoldPricesExist(sale: Sale, lines: seq<Line>)
    requires forall i :: 0 <= i < |lines| ==> WasSold(sale, lines[i].productId)
    ensures AtSoldPrices(sale, lines, Map(lines, ReturnedLine(sale)))
  {
    hide FindSaleLine, SoldPrice;
    var returned := Map(lines, ReturnedLine(sale));
    forall i | 0 <= i < |lines|
      ensures exists j :: FirstSold(sale, lines[i].productId, j) && returned[i].unitPrice == sale.lines[j].unitPrice
    {
      SoldPriceExists(sale, lines[i].productId);
      assert returned[i] == ReturnedLine(sale)(lines[i]);
    }
  }

  lemma ReturnInOrder(s: State, c: Call, r: Request)
    requires r.ReturnSale? && Consistent(s)
    ensures ApplyRefund(s, c, r).verdict == Accepted <==> InOrder(s, c, r)
  {
    hide Consistent, TakeBack, WasSold, AtSoldPrices, Sum, Map, TaxAt;
    if r.saleId in s.selling.sales {
      var sale := s.selling.sales[r.saleId];
      var own := Map(r.lines, ReturnedLine(sale));
      InvoiceIsStored(s, r.saleId);
      if forall i :: 0 <= i < |r.lines| ==> WasSold(sale, r.lines[i].productId) { SoldPricesExist(sale, r.lines); }
      ReturnIsAccepted(s, c, r.branchId, r.saleId, r.lines, r.refund, r.mayApprove, own);
      forall returned | AtSoldPrices(sale, r.lines, returned)
        ensures (forall i :: 0 <= i < |r.lines| ==> WasSold(sale, r.lines[i].productId))
             && Sum(returned, LineValue()) == Sum(own, LineValue())
      {
        ReturnedValue(sale, r.lines, returned);
        SoldPricesExist(sale, r.lines);
        ReturnedValue(sale, r.lines, own);
      }
    } else {
      ReturnIsAccepted(s, c, r.branchId, r.saleId, r.lines, r.refund, r.mayApprove, []);
    }
  }

  lemma InvoiceIsStored(s: State, saleId: Id)
    requires Consistent(s) && saleId in s.selling.sales
    ensures s.selling.sales[saleId].invoiceId in s.selling.invoices
  {
    hide KeysOwn, BranchIds, RefsKnown, LedgerReconciles, ChainOk, CostsOk, SettlesBills, Numbered, DrawerOk;
  }

  lemma ApproveInOrder(s: State, c: Call, r: Request)
    requires r.ApproveRefund? && Consistent(s)
    ensures ApplyRefund(s, c, r).verdict == Accepted <==> InOrder(s, c, r)
  {
    hide KeysOwn, BranchIds, RefsKnown, LedgerReconciles, ChainOk, CostsOk, SettlesBills, Numbered, DrawerOk;
  }

  /** In a consistent state a valid request succeeds exactly when everything it needs is in order. */
  lemma AcceptedExactly(s: State, c: Call, r: Request)
    requires Consistent(s) && ValidPayload(r)
    ensures Apply(s, c, r).verdict == Accepted <==> InOrder(s, c, r)
  {
    hide Consistent, ValidPayload, InOrder, ApplyRegistry, ApplyParty, ApplyBranch, ApplyOrdering, ApplyBilling,
        ApplyDispute, ApplyStock, ApplySelling, ApplyRefund;
    if IsRegistry(r) || IsParty(r) { RegistryInOrder(s, c, r); }
    else if IsBranch(r) { BranchInOrder(s, c, r); }
    else if r.RecordLots? {
      ConsistentChain(s);
      IntakeInOrder(s, c, r);
    }
    else if IsOrdering(r) { OrderingInOrder(s, c, r); }
    else if r.CreatePurchaseInvoice? {
      ConsistentChain(s);
      InvoiceInOrder(s, c, r);
    }
    else if r.ReturnToSupplier? { SendBackInOrder(s, c, r); }
    else if r.PaySupplier? { PayInOrder(s, c, r); }
    else if IsDispute(r) { DisputeInOrder(s, c, r); }
    else if IsStock(r) { StockInOrder(s, c, r); }
    else if IsSelling(r) { SellingInOrder(s, c, r); }
    else if r.ReturnSale? { ReturnInOrder(s, c, r); }
    else { ApproveInOrder(s, c, r); }
  }

  lemma ConsistentChain(s: State)
    requires Consistent(s)
    ensures ChainOk(s.purchasing) && CostsOk(s.purchasing)
  {
    hide KeysOwn, BranchIds, RefsKnown, TillFaithful, LedgerReconciles, ChainOk, CostsOk, SettlesBills, Numbered;
  }

  /** In every run a request succeeds exactly when its tenant is not locked out, it is valid and it is in order. */
  lemma RunsAcceptExactly(ws: seq<World>, es: seq<Event>, i: nat)
    requires IsRun(ws, es) && i < |es| && es[i].Arrived? && OnTenantPath(es[i].request)
    ensures Serves(ws[i], es[i])
       <==> && !LastMark(ws, es, i, TenantMark(es[i].call.tenantId), true) && ValidPayload(es[i].request)
            && InOrder(ws[i].mem, es[i].call, es[i].request)
  {
    hide LastMark, ValidPayload, Apply, Serve, InOrder, Consistent, Step, Ahead;
    RunsStayConsistent(ws, es, i);
    RunsLockOut(ws, es, i);
    if ValidPayload(es[i].request) { AcceptedExactly(ws[i].mem, es[i].call, es[i].request); }
  }
}
