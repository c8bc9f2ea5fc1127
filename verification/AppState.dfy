/** The mutable application state and its POST handlers (main.py, state.py). */
module AppStates {
  import opened Folds
  import opened Inventory
  import opened Entities
  import opened Taxes
  import opened Money
  import opened Numbering
  import opened StateModel
  import opened BatchTracking
  import opened Handlers

  class AppState {
    var tenants: map<Id, Tenant>
    var branches: map<Id, Branch>
    var products: map<Id, Product>
    var catalogOverrides: map<(Id, Id), CatalogOverride>
    var reorderRules: map<(Id, Id), ReorderRule>
    var suppliers: map<Id, Supplier>
    var customers: map<Id, Customer>
    var cashSessions: map<Id, CashSession>
    var purchaseOrders: map<Id, PurchaseOrder>
    var goodsReceipts: map<Id, GoodsReceipt>
    var purchaseInvoices: map<Id, PurchaseInvoice>
    var vendorDisputes: map<Id, VendorDispute>
    var supplierPayments: map<Id, SupplierPayment>
    var transfers: map<Id, Transfer>
    var saleReturns: map<Id, CustomerReturnNote>
    var creditNotes: map<Id, CreditNote>
    var exchanges: map<Id, Exchange>
    var supplierReturns: map<Id, SupplierReturnNote>
    var stockCounts: map<Id, StockCount>
    var batchLots: map<Id, BatchLot>
    var invoices: map<Id, Invoice>
    var sales: map<Id, Sale>
    var counters: Counters
    const inventory: InventoryLedgerService

    /** The contents of the object and of its ledger, as a value. */
    function View(): State
      reads this, inventory
    {
      State(
        Registry(tenants, branches, products, suppliers, catalogOverrides, reorderRules),
        Purchasing(purchaseOrders, goodsReceipts, purchaseInvoices, vendorDisputes, supplierReturns, supplierPayments,
            batchLots), Selling(customers, cashSessions, invoices, sales, saleReturns, creditNotes, exchanges),
        Stockroom(transfers, stockCounts),
        counters,
        inventory.entries)
    }

    constructor (s: State)
      ensures View() == s && fresh(inventory)
    {
      tenants, branches, products := s.registry.tenants, s.registry.branches, s.registry.products;
      catalogOverrides, reorderRules := s.registry.catalogOverrides, s.registry.reorderRules;
      suppliers, customers, cashSessions := s.registry.suppliers, s.selling.customers, s.selling.cashSessions;
      purchaseOrders, goodsReceipts, purchaseInvoices := s.purchasing.purchaseOrders, s.purchasing.goodsReceipts,
          s.purchasing.purchaseInvoices;
      vendorDisputes, supplierPayments, transfers := s.purchasing.vendorDisputes, s.purchasing.supplierPayments,
          s.stockroom.transfers;
      saleReturns, creditNotes, exchanges := s.selling.saleReturns, s.selling.creditNotes, s.selling.exchanges;
      supplierReturns, stockCounts, batchLots := s.purchasing.supplierReturns, s.stockroom.stockCounts,
          s.purchasing.batchLots;
      invoices, sales, counters := s.selling.invoices, s.selling.sales, s.counters;
      inventory := new InventoryLedgerService(s.ledger);
    }

    /** `next_*_number`: one counter per document kind, branch and fiscal year in one dictionary. */
    method DrawNumber(kind: Kind, branch: Id) returns (number: string)
      modifies this`counters
      ensures number == NextNumber(old(counters), kind, branch)
      ensures counters == Advance(old(counters), kind, branch)
    {
      var key := CounterKey(kind, branch);
      var value := (if key in counters then counters[key] else 0) + 1;
      counters := counters[key := value];
      number := Number(kind, value);
    }

    // ---- catalogue ----

    method SaveOverride(c: Call, branch: Id, product: Id, price: Option<int>, active: bool) returns (v: Verdict)
      modifies this`catalogOverrides
      ensures Outcome(v, View()) == PutOverride(old(View()), c, branch, product, price, active)
    {
      catalogOverrides := catalogOverrides[(branch, product) :=
          CatalogOverride(c.tenantId, branch, product, price, active)];
      v := Accepted;
    }

    method SaveReorderRule(c: Call, branch: Id, product: Id, least: int, target: int) returns (v: Verdict)
      modifies this`reorderRules
      ensures Outcome(v, View()) == PutReorderRule(old(View()), c, branch, product, least, target)
    {
      if target < least { return Refused; }
      reorderRules := reorderRules[(branch, product) := ReorderRule(c.tenantId, branch, product, least, target)];
      v := Accepted;
    }

    method SetTenantStatus(target: Id, suspended: bool) returns (v: Verdict)
      modifies this`tenants
      ensures Outcome(v, View()) == SetTenant(old(View()), target, suspended)
    {
      if target !in tenants { return Crashed; }
      tenants := tenants[target := Tenant(suspended)];
      v := Accepted;
    }

    // ---- cash sessions ----

    method OpenCashSession(c: Call, branch: Id, openingFloat: int) returns (v: Verdict)
      modifies this`cashSessions
      ensures Outcome(v, View()) == OpenSession(old(View()), c, branch, openingFloat)
    {
      cashSessions := cashSessions[c.ids(0) :=
          CashSession(c.tenantId, branch, true, openingFloat, 0, openingFloat, None, None)];
      v := Accepted;
    }

    method CloseCashSession(sessionId: Id, closing: int) returns (v: Verdict)
      modifies this`cashSessions
      ensures Outcome(v, View()) == CloseSession(old(View()), sessionId, closing)
    {
      if sessionId !in cashSessions { return Crashed; }
      var session := cashSessions[sessionId];
      if !session.open { return Refused; }
      var expected := ExpectedClose(session.openingFloat, session.cashSales);
      session := session.(open := false, closing := Some(closing));
      session := session.(expectedClose := expected, variance := Some(closing - expected));
      cashSessions := cashSessions[sessionId := session];
      v := Accepted;
    }

    /** The cash-session part of `create_sale` and `create_exchange_order`. */
    method SettleSession(sessionId: Option<Id>, method_: string, amount: int) returns (v: Verdict)
      modifies this`cashSessions
      ensures (v, cashSessions) == Handlers.SettleSession(old(cashSessions), sessionId, method_, amount)
    {
      if sessionId.None? { return Accepted; }
      if sessionId.value !in cashSessions { return Crashed; }
      var session := cashSessions[sessionId.value];
      if !session.open { return Refused; }
      if method_ == "cash" {
        session := session.(cashSales := session.cashSales + amount);
        session := session.(expectedClose := session.openingFloat + session.cashSales);
        cashSessions := cashSessions[sessionId.value := session];
      }
      v := Accepted;
    }

    // ---- purchase orders, receipts, lots ----

    method PlacePurchaseOrder(c: Call, branch: Id, supplier: Id, lines: seq<OrderLine>) returns (v: Verdict)
      modifies this`purchaseOrders
      ensures Outcome(v, View()) == PlaceOrder(old(View()), c, branch, supplier, lines)
    {
      purchaseOrders := purchaseOrders[c.ids(0) :=
          PurchaseOrder(c.ids(0), c.tenantId, branch, supplier, lines, NotRequested, None, None, None)];
      v := Accepted;
    }

    method SubmitOrder(c: Call, branch: Id, orderId: Id) returns (v: Verdict)
      modifies this`purchaseOrders
      ensures Outcome(v, View()) == Submit(old(View()), c, branch, orderId)
    {
      if orderId !in purchaseOrders || purchaseOrders[orderId].tenantId != c.tenantId
         || purchaseOrders[orderId].branchId != branch {
        return Refused;
      }
      var order := purchaseOrders[orderId];
      if !(order.status == NotRequested || order.status == Rejected) { return Refused; }
      order := order.(status := PendingApproval, requestedOn := Some(c.today));
      order := order.(decidedOn := None, approvedOn := None);
      purchaseOrders := purchaseOrders[orderId := order];
      v := Accepted;
    }

    method DecideOrder(c: Call, branch: Id, orderId: Id, approve: bool) returns (v: Verdict)
      modifies this`purchaseOrders
      ensures Outcome(v, View()) == Decide(old(View()), c, branch, orderId, approve)
    {
      if orderId !in purchaseOrders || purchaseOrders[orderId].tenantId != c.tenantId
         || purchaseOrders[orderId].branchId != branch {
        return Refused;
      }
      var order := purchaseOrders[orderId];
      if order.status != PendingApproval { return Refused; }
      order := order.(status := if approve then Approved else Rejected);
      order := order.(decidedOn := Some(c.today), approvedOn := if approve then Some(c.today) else None);
      purchaseOrders := purchaseOrders[orderId := order];
      v := Accepted;
    }

    /** Posts one ledger entry per line. */
    method PostLines(lines: seq<Line>, branch: Id, kind: EntryKind, sign: int)
      modifies inventory
      ensures View() == Posted(old(View()), lines, branch, kind, sign)
    {
      var before := inventory.entries;
      for i := 0 to |lines|
        invariant inventory.entries == before + Map(lines[..i], Post(branch, kind, sign))
      {
        MapPrefix(lines, i, Post(branch, kind, sign));
        inventory.PostEntry(lines[i].productId, branch, sign * lines[i].quantity, kind);
      }
      assert lines[..|lines|] == lines;
    }

    method CreateReceipt(c: Call, branch: Id, orderId: Id) returns (v: Verdict)
      modifies this`goodsReceipts, inventory
      ensures Outcome(v, View()) == Receive(old(View()), c, branch, orderId)
    {
      if orderId !in purchaseOrders || purchaseOrders[orderId].tenantId != c.tenantId
         || purchaseOrders[orderId].branchId != branch {
        return Refused;
      }
      if exists k :: k in goodsReceipts && goodsReceipts[k].orderId == orderId { return Refused; }
      var order := purchaseOrders[orderId];
      if order.status != Approved { return Refused; }
      PostLines(Bare(order.lines), branch, PurchaseReceipt, 1);
      var receipt := GoodsReceipt(c.ids(0), c.tenantId, branch, orderId, order.supplierId, c.today, order.lines);
      goodsReceipts := goodsReceipts[c.ids(0) := receipt];
      v := Accepted;
    }

    method RecordLots(c: Call, branch: Id, receiptId: Id, inputs: seq<LotInput>) returns (v: Verdict)
      modifies this`batchLots
      ensures Outcome(v, View()) == Intake(old(View()), c, branch, receiptId, inputs)
    {
      if receiptId !in goodsReceipts || goodsReceipts[receiptId].tenantId != c.tenantId
         || goodsReceipts[receiptId].branchId != branch {
        return Refused;
      }
      if exists k :: k in batchLots && batchLots[k].receiptId == receiptId { return Refused; }
      var receipt := goodsReceipts[receiptId];
      var ok := ValidateBatchLots(receipt.lines, inputs);
      if !ok { return Refused; }
      ghost var before := batchLots;
      for i := 0 to |inputs|
        invariant batchLots == StoreLots(before, c, receipt, branch, inputs[..i])
      {
        assert inputs[..i + 1][..i] == inputs[..i];
        batchLots := batchLots[c.ids(i) := NewLot(c, receipt, branch, inputs[i], c.ids(i))];
      }
      assert inputs[..|inputs|] == inputs;
      v := Accepted;
    }

    method CostLines(lines: seq<OrderLine>) returns (known: bool, costs: seq<CostLine>)
      ensures known == AllKnown(products, lines)
      ensures known ==> costs == Map(lines, Costed(products))
    {
      costs := [];
      for i := 0 to |lines|
        invariant forall j :: 0 <= j < i ==> lines[j].productId in products
        invariant costs == Map(lines[..i], Costed(products))
      {
        var line := lines[i];
        if line.productId !in products { return false, []; }
        MapPrefix(lines, i, Costed(products));
        costs := costs + [CostLine(line.quantity, line.unitCost, products[line.productId].taxRate)];
      }
      assert lines[..|lines|] == lines;
      known := true;
    }

    method CreatePurchaseInvoice(c: Call, branch: Id, receiptId: Id) returns (v: Verdict)
      modifies this`purchaseInvoices, this`counters
      ensures var o := InvoiceReceipt(old(View()), c, branch, receiptId);
              v == o.verdict && purchaseInvoices == o.state.purchasing.purchaseInvoices && counters == o.state.counters
    {
      hide PurchaseTotals, NextNumber, Advance, Map;
      if receiptId !in goodsReceipts { return Crashed; }
      var receipt := goodsReceipts[receiptId];
      if exists k :: k in purchaseInvoices && purchaseInvoices[k].receiptId == receipt.id { return Refused; }
      if receipt.supplierId !in suppliers || branch !in branches { return Crashed; }
      var supplier := suppliers[receipt.supplierId];
      var known, costs := CostLines(receipt.lines);
      if !known { return Crashed; }
      var totals := ComputePurchaseTotals(supplier.gstin, branches[branch].gstin, costs);
      var dueDate := c.today + Max(0, supplier.termsDays);
      var number := DrawNumber(PurchaseBill, branch);
      var bill := PurchaseInvoice(c.ids(0), c.tenantId, branch, receipt.id, receipt.orderId, receipt.supplierId,
          c.today, dueDate, supplier.termsDays, number, totals, receipt.lines);
      assert bill == BillOf(old(View()), c, branch, receipt);
      purchaseInvoices := purchaseInvoices[c.ids(0) := bill];
      v := Accepted;
    }

    // ---- disputes ----

    method OpenDispute(c: Call, branch: Id, receiptId: Option<Id>, invoiceId: Option<Id>, kind: string) returns (v: Verdict)
      modifies this`vendorDisputes
      ensures Outcome(v, View()) == Dispute(old(View()), c, branch, receiptId, invoiceId, kind)
    {
      if receiptId.Some? == invoiceId.Some? { return Refused; }
      var supplier;
      if receiptId.Some? {
        if !OwnedReceipt(View(), c, branch, receiptId.value) { return Refused; }
        supplier := goodsReceipts[receiptId.value].supplierId;
      } else {
        if !OwnedInvoice(View(), c, branch, invoiceId.value) { return Refused; }
        supplier := purchaseInvoices[invoiceId.value].supplierId;
      }
      vendorDisputes := vendorDisputes[c.ids(0) :=
        VendorDispute(c.ids(0), c.tenantId, branch, supplier, receiptId, invoiceId, kind, true, c.today, None)];
      v := Accepted;
    }

    method ResolveDispute(c: Call, branch: Id, disputeId: Id) returns (v: Verdict)
      modifies this`vendorDisputes
      ensures Outcome(v, View()) == Resolve(old(View()), c, branch, disputeId)
    {
      if disputeId !in vendorDisputes { return Refused; }
      var d := vendorDisputes[disputeId];
      if d.tenantId != c.tenantId || d.branchId != branch { return Refused; }
      if !d.open { return Refused; }
      vendorDisputes := vendorDisputes[disputeId := d.(open := false, resolvedOn := Some(c.today))];
      v := Accepted;
    }

    // ---- stock movements ----

    method CreateTransfer(c: Call, source: Id, destination: Id, lines: seq<Line>) returns (v: Verdict)
      modifies this`transfers, inventory
      ensures Outcome(v, View()) == MoveStock(old(View()), c, source, destination, lines)
    {
      ghost var before := inventory.entries;
      for i := 0 to |lines|
        invariant inventory.entries == AfterTransfers(before, source, destination, lines[..i])
            && transfers == old(transfers)
      {
        assert lines[..i + 1][..i] == lines[..i];
        inventory.TransferStock(lines[i].productId, source, destination, lines[i].quantity);
      }
      assert lines[..|lines|] == lines;
      transfers := transfers[c.ids(0) := Transfer(c.tenantId, source, destination, lines)];
      v := Accepted;
    }

    method CountStock(c: Call, branch: Id, reason: string, lines: seq<Line>) returns (v: Verdict)
      modifies this`stockCounts, inventory
      ensures Outcome(v, View()) == TakeCount(old(View()), c, branch, reason, lines)
    {
      ghost var before := inventory.entries;
      var results := [];
      for i := 0 to |lines|
        invariant inventory.entries == AfterCounts(before, branch, lines[..i]) && stockCounts == old(stockCounts)
        invariant results == CountResults(before, branch, lines[..i])
      {
        assert lines[..i + 1][..i] == lines[..i];
        var result := inventory.ApplyStockCount(lines[i].productId, branch, lines[i].quantity);
        results := results + [result];
      }
      assert lines[..|lines|] == lines;
      stockCounts := stockCounts[c.ids(0) := StockCount(c.tenantId, branch, reason, results)];
      v := Accepted;
    }

    /** `_build_branch_batch_report`, reduced to the lots, the stock and the report built from them. */
    method BranchBatchReport(lots: map<Id, BatchLot>, branch: Id, today: Date)
      returns (report: BatchReport)
      requires forall k :: k in lots ==> lots[k].id == k
      ensures ReportsStored(lots, StockAt(inventory.entries, branch), today, report)
    {
      hide ReportsLots, ReportsStored, Sum, Untracked;
      ghost var ks;
      var xs;
      ks, xs := ListValues(lots);
      var stock: map<Id, int> := map[];
      for i := 0 to |xs|
        invariant forall p :: p in stock ==> stock[p] == Stock(inventory.entries, p, branch)
        invariant forall j :: 0 <= j < i ==> xs[j].productId in stock
      {
        var onHand := inventory.StockOnHand(xs[i].productId, branch);
        stock := stock[xs[i].productId := onHand];
      }
      forall k | k in lots ensures lots[k].productId in stock {
        var i :| 0 <= i < |ks| && ks[i] == k;
        assert xs[i].productId in stock;
      }
      report := BuildBatchExpiryReport(xs, stock, today);
      ListedIsStored(lots, ks, xs, stock, StockAt(inventory.entries, branch), today, report);
    }

    /** Remaining quantity the report shows for a lot, zero when it shows none. */
    method ReportedRemaining(report: BatchReport, lotId: Id) returns (remaining: int)
      ensures (exists r :: r in report.records && r.lotId == lotId && r.remaining == remaining)
           || (remaining == 0 && forall r :: r in report.records ==> r.lotId != lotId)
    {
      for i := 0 to |report.records|
        invariant forall j :: 0 <= j < i ==> report.records[j].lotId != lotId
      {
        if report.records[i].lotId == lotId { return report.records[i].remaining; }
      }
      remaining := 0;
    }

    /** What the branch's batch report shows as remaining for a lot. */
    method RemainingInLot(lots: map<Id, BatchLot>, branch: Id, today: Date, lotId: Id) returns (remaining: int)
      requires lotId in lots && forall k :: k in lots ==> lots[k].id == k
      ensures var left := StoredRemaining(lots, Stock(inventory.entries, lots[lotId].productId, branch), lots[lotId]);
              if left > 0 then remaining == left else remaining == 0
    {
      hide StoredRemaining, Sum, ReportsStored;
      var report := BranchBatchReport(lots, branch, today);
      remaining := ReportedRemaining(report, lotId);
      ReportedIsRemaining(lots, StockAt(inventory.entries, branch), today, report, lotId, remaining);
    }

    method WriteOffLot(c: Call, branch: Id, lotId: Id, quantity: int) returns (v: Verdict)
      requires forall k :: k in batchLots ==> batchLots[k].id == k
      modifies this`batchLots, inventory
      ensures var o := WriteOff(old(View()), c, branch, lotId, quantity);
              v == o.verdict && batchLots == o.state.purchasing.batchLots && inventory.entries == o.state.ledger
    {
      hide StoredRemaining, Sum;
      if lotId !in batchLots || batchLots[lotId].tenantId != c.tenantId || batchLots[lotId].branchId != branch {
        return Refused;
      }
      var lots := BranchLots(batchLots, c.tenantId, branch);
      if exists k :: k in lots && lots[k].productId !in products { return Crashed; }
      var lot := batchLots[lotId];
      var remaining := RemainingInLot(lots, branch, c.today, lotId);
      if remaining <= 0 { return Refused; }
      if quantity > remaining { return Refused; }
      batchLots := batchLots[lotId := lot.(writtenOff := lot.writtenOff + quantity)];
      inventory.PostEntry(lot.productId, branch, -quantity, ExpiryWriteOff);
      v := Accepted;
    }

    // ---- sales ----

    method ResolvePricing(branch: Id, l: Line) returns (v: Verdict, unitPrice: int)
      ensures v == PricingFault(Catalogue(products, catalogOverrides), branch)(l)
      ensures v == Accepted ==> unitPrice == UnitPrice(Catalogue(products, catalogOverrides), branch, l.productId)
    {
      unitPrice := 0;
      if l.productId !in products { return Crashed, 0; }
      var key := (branch, l.productId);
      if key in catalogOverrides && !catalogOverrides[key].active { return Refused, 0; }
      unitPrice := if key in catalogOverrides && catalogOverrides[key].sellingPrice.Some?
                   then catalogOverrides[key].sellingPrice.value else products[l.productId].sellingPrice;
      v := Accepted;
    }

    /** Prices and issues the lines of a sale one by one, stopping at the first line that does not pass. */
    method IssueLines(branch: Id, lines: seq<Line>) returns (v: Verdict, subtotal: int, items: seq<SaleLine>)
      modifies inventory
      ensures var cat := Catalogue(products, catalogOverrides);
              var k := FirstFault(lines, PricingFault(cat, branch));
              && inventory.entries == old(inventory.entries) + Map(lines[..k], Post(branch, SaleIssue, -1))
              && v == (if k < |lines| then PricingFault(cat, branch)(lines[k]) else Accepted)
              && (k == |lines| ==> subtotal == Sum(lines, LineTotal(cat, branch)))
              && (k == |lines| ==> items == Map(lines, SoldLine(cat, branch)))
    {
      hide Sum, Map, FirstFault, UnitPrice, Amount;
      ghost var cat := Catalogue(products, catalogOverrides);
      ghost var check, total, item, post := PricingFault(cat, branch), LineTotal(cat, branch), SoldLine(cat, branch),
                                            Post(branch, SaleIssue, -1);
      subtotal, items := 0, [];
      SumEmpty(lines[..0], total);
      MapEmpty(lines[..0], item);
      MapEmpty(lines[..0], post);
      for i := 0 to |lines|
        invariant inventory.entries == old(inventory.entries) + Map(lines[..i], post)
        invariant forall j :: 0 <= j < i ==> check(lines[j]) == Accepted
        invariant subtotal == Sum(lines[..i], total) && items == Map(lines[..i], item)
      {
        var l := lines[i];
        var fault, unitPrice := ResolvePricing(branch, l);
        if fault != Accepted {
          FirstFaultAt(lines, check, i);
          return fault, 0, [];
        }
        SumPrefix(lines, i, total);
        MapPrefix(lines, i, item);
        MapPrefix(lines, i, post);
        subtotal := subtotal + Amount(l.quantity, unitPrice);
        items := items + [SaleLine(l.productId, l.quantity, unitPrice)];
        inventory.PostEntry(l.productId, branch, -1 * l.quantity, SaleIssue);
      }
      FirstFaultAt(lines, check, |lines|);
      assert lines[..|lines|] == lines;
      v := Accepted;
    }

    method CreateSale(c: Call, branch: Id, customerId: Option<Id>, gstin: Option<string>, lines: seq<Line>, payment: int,
                      method_: string, sessionId: Option<Id>) returns (v: Verdict)
      modifies this`invoices, this`sales, this`counters, this`cashSessions, this`customers, inventory
      ensures (v, Till(invoices, sales, counters, cashSessions, customers, inventory.entries))
           == RingUp(old(Till(invoices, sales, counters, cashSessions, customers, inventory.entries)),
                     Catalogue(products, catalogOverrides), branches, c, branch, customerId, gstin, lines, payment,
                         method_, sessionId)
    {
      hide Sum, Map, InvoiceTaxes, NextNumber, Advance, FirstFault, CountVisit, Handlers.SettleSession;
      if branch !in branches { return Crashed; }
      if customerId.Some? && customerId.value !in customers { return Refused; }
      var fault, subtotal, items := IssueLines(branch, lines);
      if fault != Accepted { return fault; }
      assert lines[..|lines|] == lines;
      if |lines| == 0 { return Crashed; }
      var tax := InvoiceTaxes(branches[branch].gstin, gstin, subtotal, products[lines[0].productId].taxRate);
      var number := DrawNumber(SalesInvoice, branch);
      var invoice := Invoice(c.tenantId, branch, number, gstin, subtotal, tax, subtotal + tax.total);
      var sale := Sale(c.ids(1), c.tenantId, branch, c.ids(0), customerId, method_, sessionId, payment, items);
      assert invoice == SaleInvoiceOf(old(counters), Catalogue(products, catalogOverrides), branches, c, branch, gstin,
          lines);
      invoices := invoices[c.ids(0) := invoice];
      sales := sales[c.ids(1) := sale];
      v := SettleSession(sessionId, method_, invoice.grandTotal);
      if v == Accepted {
        RecordVisit(customerId, c.ids(1), invoice.grandTotal, gstin);
      }
    }

    method RecordVisit(customerId: Option<Id>, saleId: Id, total: int, gstin: Option<string>)
      modifies this`customers
      ensures customers == CountVisit(old(customers), customerId, saleId, total, gstin)
    {
      if customerId.Some? && customerId.value in customers {
        var customer := customers[customerId.value];
        customer := customer.(visitCount := customer.visitCount + 1, lifetimeValue := customer.lifetimeValue + total);
        customer := customer.(lastSaleId := Some(saleId));
        if customer.gstin.None? { customer := customer.(gstin := gstin); }
        customers := customers[customerId.value := customer];
      }
    }

    method SaleLineFor(sale: Sale, productId: Id) returns (found: Option<SaleLine>)
      ensures found == FindSaleLine(sale.lines, productId)
    {
      for i := 0 to |sale.lines|
        invariant FindSaleLine(sale.lines, productId) == FindSaleLine(sale.lines[i..], productId)
      {
        if sale.lines[i].productId == productId { return Some(sale.lines[i]); }
        assert sale.lines[i..][1..] == sale.lines[i + 1..];
      }
      found := None;
    }

    method ReturnSale(c: Call, branch: Id, saleId: Id, lines: seq<Line>, refund: int, mayApprove: bool) returns (v: Verdict)
      modifies this`creditNotes, this`saleReturns, this`counters, inventory
      ensures var o := TakeBack(old(View()), c, branch, saleId, lines, refund, mayApprove);
              v == o.verdict && creditNotes == o.state.selling.creditNotes && saleReturns == o.state.selling.saleReturns
                  && counters == o.state.counters && inventory.entries == o.state.ledger
    {
      hide Sum, Map, InvoiceTaxes, FindSaleLine, NextNumber, Advance, FirstFault;
      if saleId !in sales || sales[saleId].invoiceId !in invoices || branch !in branches { return Crashed; }
      var sale := sales[saleId];
      if refund > sale.paymentAmount { return Refused; }
      var fault, subtotal := TakeLinesBack(sale, branch, lines);
      if fault != Accepted { return fault; }
      assert lines[..|lines|] == lines;
      if |lines| == 0 || lines[0].productId !in products { return Crashed; }
      var tax := InvoiceTaxes(branches[branch].gstin, invoices[sale.invoiceId].customerGstin, subtotal,
                              products[lines[0].productId].taxRate);
      var total := subtotal + tax.total;
      if refund > total { return Refused; }
      var number := DrawNumber(CustomerCreditNote, branch);
      var note := CreditNote(c.tenantId, branch, c.ids(0), number, subtotal, tax, total);
      assert note == CustomerCredit(old(View()), c, branch, sale, lines);
      creditNotes := creditNotes[c.ids(1) := note];
      saleReturns := saleReturns[c.ids(0) := CustomerReturnNote(c.tenantId, branch, saleId, mayApprove, c.ids(1), refund)];
      v := Accepted;
    }

    method TakeLinesBack(sale: Sale, branch: Id, lines: seq<Line>) returns (v: Verdict, subtotal: int)
      modifies inventory
      ensures var k := FirstFault(lines, ReturnFault(sale));
              && inventory.entries == old(inventory.entries) + Map(lines[..k], Post(branch, CustomerReturn, 1))
              && v == (if k < |lines| then ReturnFault(sale)(lines[k]) else Accepted)
              && (k == |lines| ==> subtotal == Sum(lines, ReturnedTotal(sale)))
    {
      hide Sum, Map, FirstFault, FindSaleLine, Amount;
      ghost var check, total, post := ReturnFault(sale), ReturnedTotal(sale), Post(branch, CustomerReturn, 1);
      subtotal := 0;
      SumEmpty(lines[..0], total);
      MapEmpty(lines[..0], post);
      for i := 0 to |lines|
        invariant inventory.entries == old(inventory.entries) + Map(lines[..i], post)
        invariant forall j :: 0 <= j < i ==> check(lines[j]) == Accepted
        invariant subtotal == Sum(lines[..i], total)
      {
        var l := lines[i];
        var found := SaleLineFor(sale, l.productId);
        if found.None? {
          FirstFaultAt(lines, check, i);
          return Refused, 0;
        }
        SumPrefix(lines, i, total);
        MapPrefix(lines, i, post);
        subtotal := subtotal + Amount(l.quantity, found.value.unitPrice);
        inventory.PostEntry(l.productId, branch, 1 * l.quantity, CustomerReturn);
      }
      FirstFaultAt(lines, check, |lines|);
      assert lines[..|lines|] == lines;
      v := Accepted;
    }

    method ApproveRefund(saleReturnId: Id) returns (v: Verdict)
      modifies this`saleReturns
      ensures Outcome(v, View()) == Approve(old(View()), saleReturnId)
    {
      if saleReturnId !in saleReturns { return Crashed; }
      var note := saleReturns[saleReturnId].(refundApproved := true);
      saleReturns := saleReturns[saleReturnId := note];
      v := if note.creditNoteId in creditNotes then Accepted else Crashed;
    }

    method ExchangeBack(sale: Sale, branch: Id, lines: seq<Line>) returns (v: Verdict, total: int)
      modifies inventory
      ensures var k := FirstFault(lines, ExchangeFault(products, sale));
              && inventory.entries == old(inventory.entries) + Map(lines[..k], Post(branch, CustomerReturn, 1))
              && v == (if k < |lines| then ExchangeFault(products, sale)(lines[k]) else Accepted)
              && (k == |lines| ==> total == Sum(lines, ReturnedGross(products, sale)))
    {
      hide Sum, Map, FirstFault, FindSaleLine, Amount, TaxOn;
      ghost var check, gross, post := ExchangeFault(products, sale), ReturnedGross(products, sale),
          Post(branch, CustomerReturn, 1);
      total := 0;
      SumEmpty(lines[..0], gross);
      MapEmpty(lines[..0], post);
      for i := 0 to |lines|
        invariant inventory.entries == old(inventory.entries) + Map(lines[..i], post)
        invariant forall j :: 0 <= j < i ==> check(lines[j]) == Accepted
        invariant total == Sum(lines[..i], gross)
      {
        var l := lines[i];
        var found := SaleLineFor(sale, l.productId);
        if found.None? || l.productId !in products {
          FirstFaultAt(lines, check, i);
          return if found.None? then Refused else Crashed, 0;
        }
        SumPrefix(lines, i, gross);
        MapPrefix(lines, i, post);
        assert ReturnedTotal(sale)(l) == Amount(l.quantity, found.value.unitPrice);
        assert gross(l) == TaxInclusive(ReturnedTotal(sale)(l), RateOf(products, l.productId));
        total := total + TaxInclusive(Amount(l.quantity, found.value.unitPrice), products[l.productId].taxRate);
        inventory.PostEntry(l.productId, branch, 1 * l.quantity, CustomerReturn);
      }
      FirstFaultAt(lines, check, |lines|);
      assert lines[..|lines|] == lines;
      v := Accepted;
    }

    method ExchangeOut(branch: Id, lines: seq<Line>) returns (v: Verdict, total: int)
      modifies inventory
      ensures var cat := Catalogue(products, catalogOverrides);
              var k := FirstFault(lines, PricingFault(cat, branch));
              && inventory.entries == old(inventory.entries) + Map(lines[..k], Post(branch, SaleIssue, -1))
              && v == (if k < |lines| then PricingFault(cat, branch)(lines[k]) else Accepted)
              && (k == |lines| ==> total == Sum(lines, ReplacementGross(cat, branch)))
    {
      hide Sum, Map, FirstFault, UnitPrice, Amount, TaxOn;
      ghost var cat := Catalogue(products, catalogOverrides);
      ghost var check, gross, post := PricingFault(cat, branch), ReplacementGross(cat, branch), Post(branch, SaleIssue, -1);
      total := 0;
      SumEmpty(lines[..0], gross);
      MapEmpty(lines[..0], post);
      for i := 0 to |lines|
        invariant inventory.entries == old(inventory.entries) + Map(lines[..i], post)
        invariant forall j :: 0 <= j < i ==> check(lines[j]) == Accepted
        invariant total == Sum(lines[..i], gross)
      {
        var l := lines[i];
        var fault, unitPrice := ResolvePricing(branch, l);
        if fault != Accepted {
          FirstFaultAt(lines, check, i);
          return fault, 0;
        }
        SumPrefix(lines, i, gross);
        MapPrefix(lines, i, post);
        assert LineTotal(cat, branch)(l) == Amount(l.quantity, unitPrice);
        assert gross(l) == TaxInclusive(LineTotal(cat, branch)(l), RateOf(products, l.productId));
        total := total + TaxInclusive(Amount(l.quantity, unitPrice), products[l.productId].taxRate);
        inventory.PostEntry(l.productId, branch, -1 * l.quantity, SaleIssue);
      }
      FirstFaultAt(lines, check, |lines|);
      assert lines[..|lines|] == lines;
      v := Accepted;
    }

    method ExchangeSale(c: Call, branch: Id, saleId: Id, lines: seq<Line>, replacements: seq<Line>, method_: string,
                        sessionId: Option<Id>) returns (v: Verdict)
      modifies this`exchanges, this`cashSessions, inventory
      ensures var o := Swap(old(View()), c, branch, saleId, lines, replacements, method_, sessionId);
              v == o.verdict && exchanges == o.state.selling.exchanges && cashSessions == o.state.selling.cashSessions
                  && inventory.entries == o.state.ledger
    {
      hide Sum, Map, FindSaleLine, FirstFault;
      if saleId !in sales { return Crashed; }
      var sale := sales[saleId];
      var fault, returnTotal := ExchangeBack(sale, branch, lines);
      if fault != Accepted { return fault; }
      var outFault, replacementTotal := ExchangeOut(branch, replacements);
      assert lines[..|lines|] == lines && replacements[..|replacements|] == replacements;
      if outFault != Accepted { return outFault; }
      var (direction, balance) := ExchangeBalance(returnTotal, replacementTotal);
      var exchange := Exchange(c.tenantId, branch, saleId, returnTotal, replacementTotal, method_, sessionId, direction,
          balance);
      var settled := SettleSession(sessionId, method_, Signed(direction, balance));
      if settled != Accepted { return settled; }
      exchanges := exchanges[c.ids(0) := exchange];
      v := Accepted;
    }

    // ---- supplier returns and payments ----

    method InvoiceLineFor(lines: seq<OrderLine>, productId: Id) returns (found: Option<OrderLine>)
      ensures found == FindLine(lines, productId)
    {
      for i := 0 to |lines|
        invariant FindLine(lines, productId) == FindLine(lines[i..], productId)
      {
        if lines[i].productId == productId { return Some(lines[i]); }
        assert lines[i..][1..] == lines[i + 1..];
      }
      found := None;
    }

    method SendLinesBack(invoice: PurchaseInvoice, invoiceId: Id, branch: Id, lines: seq<Line>)
      returns (v: Verdict, costs: seq<CostLine>)
      modifies inventory
      ensures var check := SupplierReturnFault(invoice, invoiceId, supplierReturns, products);
              var k := FirstFault(lines, check);
              && inventory.entries == old(inventory.entries) + Map(lines[..k], Post(branch, SupplierReturn, -1))
              && v == (if k < |lines| then check(lines[k]) else Accepted)
              && (k == |lines| ==> costs == Map(lines, ReturnCost(products, invoice.lines)))
    {
      hide Map, FirstFault, SumMap, FindLine;
      ghost var check, cost, post := SupplierReturnFault(invoice, invoiceId, supplierReturns, products),
                                     ReturnCost(products, invoice.lines), Post(branch, SupplierReturn, -1);
      costs := [];
      MapEmpty(lines[..0], cost);
      MapEmpty(lines[..0], post);
      for i := 0 to |lines|
        invariant inventory.entries == old(inventory.entries) + Map(lines[..i], post)
        invariant forall j :: 0 <= j < i ==> check(lines[j]) == Accepted
        invariant costs == Map(lines[..i], cost)
      {
        var l := lines[i];
        var fault, unitCost := CheckReturnLine(invoice, invoiceId, l);
        if fault != Accepted {
          FirstFaultAt(lines, check, i);
          return fault, [];
        }
        MapPrefix(lines, i, cost);
        MapPrefix(lines, i, post);
        costs := costs + [CostLine(l.quantity, unitCost, products[l.productId].taxRate)];
        inventory.PostEntry(l.productId, branch, -1 * l.quantity, SupplierReturn);
      }
      FirstFaultAt(lines, check, |lines|);
      assert lines[..|lines|] == lines;
      v := Accepted;
    }

    method CheckReturnLine(invoice: PurchaseInvoice, invoiceId: Id, l: Line) returns (v: Verdict, unitCost: int)
      ensures v == SupplierReturnFault(invoice, invoiceId, supplierReturns, products)(l)
      ensures v == Accepted ==> l.productId in products && ReturnCost(products, invoice.lines)(l).unitCost == unitCost
    {
      hide FindLine, SumMap;
      unitCost := 0;
      var found := InvoiceLineFor(invoice.lines, l.productId);
      if found.None? { return Refused, 0; }
      var already := SumValues(supplierReturns, ReturnedUnits(invoiceId, l.productId));
      if l.quantity > found.value.quantity - already { return Refused, 0; }
      if l.productId !in products { return Crashed, 0; }
      return Accepted, found.value.unitCost;
    }

    method ReturnToSupplier(c: Call, branch: Id, invoiceId: Id, lines: seq<Line>) returns (v: Verdict)
      modifies this`supplierReturns, this`counters, inventory
      ensures var o := SendBack(old(View()), c, branch, invoiceId, lines);
              v == o.verdict && supplierReturns == o.state.purchasing.supplierReturns && counters == o.state.counters
                  && inventory.entries == o.state.ledger
    {
      hide Map, PurchaseTotals, FindLine, NextNumber, Advance, FirstFault;
      if invoiceId !in purchaseInvoices || purchaseInvoices[invoiceId].supplierId !in suppliers || branch !in branches {
        return Crashed;
      }
      var invoice := purchaseInvoices[invoiceId];
      var fault, costs := SendLinesBack(invoice, invoiceId, branch, lines);
      if fault != Accepted { return fault; }
      assert lines[..|lines|] == lines;
      var totals := ComputePurchaseTotals(suppliers[invoice.supplierId].gstin, branches[branch].gstin, costs);
      var number := DrawNumber(SupplierCreditNote, branch);
      var note := SupplierReturnNote(c.tenantId, branch, invoiceId, invoice.supplierId, c.today, number, totals, lines);
      assert note == ReturnNoteOf(old(View()), c, branch, invoice, invoiceId, lines);
      supplierReturns := supplierReturns[c.ids(0) := note];
      v := Accepted;
    }

    method PaySupplier(c: Call, branch: Id, invoiceId: Id, amount: int, method_: string) returns (v: Verdict)
      modifies this`supplierPayments, this`counters
      ensures var o := Pay(old(View()), c, branch, invoiceId, amount, method_);
              v == o.verdict && supplierPayments == o.state.purchasing.supplierPayments && counters == o.state.counters
    {
      hide SumMap, NextNumber, Advance;
      if invoiceId !in purchaseInvoices || purchaseInvoices[invoiceId].tenantId != c.tenantId
         || purchaseInvoices[invoiceId].branchId != branch { return Refused; }
      var invoice := purchaseInvoices[invoiceId];
      var credited := SumValues(supplierReturns, CreditFor(invoiceId));
      var paid := SumValues(supplierPayments, PaidFor(invoiceId));
      if amount > OpenAmount(invoice.totals.grandTotal, credited, paid) { return Refused; }
      var number := DrawNumber(SupplierPaymentSlip, branch);
      var payment := SupplierPayment(c.ids(0), c.tenantId, branch, invoiceId, invoice.supplierId, number, c.today,
          amount, method_, invoice.totals.grandTotal - credited - paid - amount);
      assert payment == PaymentOf(old(View()), c, branch, invoiceId, amount, method_);
      supplierPayments := supplierPayments[c.ids(0) := payment];
      v := Accepted;
    }

    // ---- one request ----

    method HandleRegistry(c: Call, r: Request) returns (v: Verdict)
      requires IsRegistry(r)
      modifies this, inventory
      ensures Outcome(v, View()) == ApplyRegistry(old(View()), c, r)
    {
      hide SetTenant;
      v := Accepted;
      match r {
        case CreateTenant => tenants := tenants[c.ids(0) := Tenant(false)];
        case SetTenantStatus(target, suspended) => v := SetTenantStatus(target, suspended);
        case CreateBranch(gstin) => branches := branches[c.ids(0) := Branch(c.tenantId, gstin)];
      }
    }

    method HandleParty(c: Call, r: Request) returns (v: Verdict)
      requires IsParty(r)
      modifies this, inventory
      ensures Outcome(v, View()) == ApplyParty(old(View()), c, r)
    {
      v := Accepted;
      match r {
        case CreateProduct(price, rate) => products := products[c.ids(0) := Product(c.tenantId, price, rate)];
        case CreateSupplier(name, gstin, terms) =>
            suppliers := suppliers[c.ids(0) := Supplier(c.tenantId, name, gstin, terms)];
        case CreateCustomer(gstin) => customers := customers[c.ids(0) := Customer(c.tenantId, gstin, 0, 0, None)];
      }
    }

    method HandleBranch(c: Call, r: Request) returns (v: Verdict)
      requires IsBranch(r)
      modifies this, inventory
      ensures Outcome(v, View()) == ApplyBranch(old(View()), c, r)
    {
      hide PutOverride, PutReorderRule, OpenSession, CloseSession;
      match r {
        case SaveOverride(branch, product, price, active) => v := SaveOverride(c, branch, product, price, active);
        case SaveReorderRule(branch, product, least, target) => v := SaveReorderRule(c, branch, product, least, target);
        case OpenCashSession(branch, amount) => v := OpenCashSession(c, branch, amount);
        case CloseCashSession(session, closing) => v := CloseCashSession(session, closing);
      }
    }

    method HandleOrdering(c: Call, r: Request) returns (v: Verdict)
      requires IsOrdering(r)
      modifies this, inventory
      ensures Outcome(v, View()) == ApplyOrdering(old(View()), c, r)
    {
      hide PlaceOrder, Submit, Decide, Receive, Intake;
      match r {
        case CreateOrder(branch, supplier, lines) => v := PlacePurchaseOrder(c, branch, supplier, lines);
        case SubmitOrder(branch, order) => v := SubmitOrder(c, branch, order);
        case DecideOrder(branch, order, approve) => v := DecideOrder(c, branch, order, approve);
        case CreateReceipt(branch, order) => v := CreateReceipt(c, branch, order);
        case RecordLots(branch, receipt, lots) => v := RecordLots(c, branch, receipt, lots);
      }
    }

    method HandleBilling(c: Call, r: Request) returns (v: Verdict)
      requires IsBilling(r)
      modifies this, inventory
      ensures Outcome(v, View()) == ApplyBilling(old(View()), c, r)
    {
      hide InvoiceReceipt, SendBack, Pay;
      match r {
        case CreatePurchaseInvoice(branch, receipt) =>
          v := CreatePurchaseInvoice(c, branch, receipt);
          assert Outcome(v, View()) == InvoiceReceipt(old(View()), c, branch, receipt);
        case ReturnToSupplier(branch, invoice, lines) => v := HandleSupplierReturn(c, branch, invoice, lines);
        case PaySupplier(branch, invoice, amount, method_) =>
          v := PaySupplier(c, branch, invoice, amount, method_);
          assert Outcome(v, View()) == Pay(old(View()), c, branch, invoice, amount, method_);
      }
    }

    method HandleSupplierReturn(c: Call, branch: Id, invoice: Id, lines: seq<Line>) returns (v: Verdict)
      modifies this, inventory
      ensures Outcome(v, View()) == SendBack(old(View()), c, branch, invoice, lines)
    {
      hide SendBack;
      v := ReturnToSupplier(c, branch, invoice, lines);
    }

    method HandleDispute(c: Call, r: Request) returns (v: Verdict)
      requires IsDispute(r)
      modifies this, inventory
      ensures Outcome(v, View()) == ApplyDispute(old(View()), c, r)
    {
      hide Dispute, Resolve;
      match r {
        case OpenDispute(branch, receipt, invoice, kind) => v := OpenDispute(c, branch, receipt, invoice, kind);
        case ResolveDispute(branch, dispute) => v := ResolveDispute(c, branch, dispute);
      }
    }

    method HandleStock(c: Call, r: Request) returns (v: Verdict)
      requires IsStock(r)
      requires forall k :: k in batchLots ==> batchLots[k].id == k
      modifies this, inventory
      ensures Outcome(v, View()) == ApplyStock(old(View()), c, r)
    {
      hide MoveStock, TakeCount, WriteOff;
      match r {
        case CreateTransfer(source, destination, lines) => v := CreateTransfer(c, source, destination, lines);
        case CountStock(branch, reason, lines) => v := CountStock(c, branch, reason, lines);
        case WriteOffLot(branch, lot, quantity) => v := WriteOffLot(c, branch, lot, quantity);
      }
    }

    method HandleSelling(c: Call, r: Request) returns (v: Verdict)
      requires IsSelling(r)
      modifies this, inventory
      ensures Outcome(v, View()) == ApplySelling(old(View()), c, r)
    {
      hide RingUp, Swap;
      match r {
        case CreateSale(branch, customer, gstin, lines, payment, method_, session) =>
          v := CreateSale(c, branch, customer, gstin, lines, payment, method_, session);
        case ExchangeSale(branch, sale, lines, replacements, method_, session) =>
          v := ExchangeSale(c, branch, sale, lines, replacements, method_, session);
      }
    }

    method HandleRefund(c: Call, r: Request) returns (v: Verdict)
      requires IsRefund(r)
      modifies this, inventory
      ensures Outcome(v, View()) == ApplyRefund(old(View()), c, r)
    {
      hide TakeBack, Approve;
      match r {
        case ReturnSale(branch, sale, lines, refund, mayApprove) =>
          v := ReturnSale(c, branch, sale, lines, refund, mayApprove);
          assert Outcome(v, View()) == TakeBack(old(View()), c, branch, sale, lines, refund, mayApprove);
        case ApproveRefund(saleReturn) => v := ApproveRefund(saleReturn);
      }
    }

    method Handle(c: Call, r: Request) returns (v: Verdict)
      requires forall k :: k in batchLots ==> batchLots[k].id == k
      modifies this, inventory
      ensures Outcome(v, View()) == Apply(old(View()), c, r)
    {
      hide ApplyRegistry, ApplyParty, ApplyBranch, ApplyOrdering, ApplyBilling, ApplyDispute, ApplyStock, ApplySelling,
          ApplyRefund;
      if IsRegistry(r) {
        v := HandleRegistry(c, r);
      } else if IsParty(r) {
        v := HandleParty(c, r);
      } else if IsBranch(r) {
        v := HandleBranch(c, r);
      } else if IsOrdering(r) {
        v := HandleOrdering(c, r);
      } else if IsBilling(r) {
        v := HandleBilling(c, r);
      } else if IsDispute(r) {
        v := HandleDispute(c, r);
      } else if IsStock(r) {
        v := HandleStock(c, r);
      } else if IsSelling(r) {
        v := HandleSelling(c, r);
      } else {
        v := HandleRefund(c, r);
      }
    }
  }

  /** The report shows a lot's remaining quantity when there is any, and nothing otherwise. */
  lemma ReportedIsRemaining(lots: map<Id, BatchLot>, stock: Id -> int, asOf: Date, report: BatchReport, lotId: Id,
                            remaining: int)
    requires lotId in lots && (forall k :: k in lots ==> lots[k].id == k) && ReportsStored(lots, stock, asOf, report)
    requires (exists r :: r in report.records && r.lotId == lotId && r.remaining == remaining)
          || (remaining == 0 && forall r :: r in report.records ==> r.lotId != lotId)
    ensures var left := StoredRemaining(lots, stock(lots[lotId].productId), lots[lotId]);
            if left > 0 then remaining == left else remaining == 0
  {
    hide StoredRemaining, Sum;
    if r :| r in report.records && r.lotId == lotId && r.remaining == remaining {
      var k :| IsShown(lots, stock, asOf, r, k);
      assert k == lotId;
    } else if StoredRemaining(lots, stock(lots[lotId].productId), lots[lotId]) > 0 {
      assert IsShown(lots, stock, asOf, StoredRecord(lots, stock, asOf, lots[lotId]), lotId);
      assert StoredRecord(lots, stock, asOf, lots[lotId]) in report.records;
    }
  }
}
