/** Payments and returns against a purchase invoice stay within it. */
module SettlementInvariant {
  import opened Folds
  import opened Inventory
  import opened Entities
  import opened Money
  import opened Taxes
  import opened Numbering
  import opened StateModel
  import opened Handlers

  predicate PositiveCosts(lines: seq<OrderLine>)
  {
    forall i :: 0 <= i < |lines| ==> lines[i].quantity > 0 && lines[i].unitCost > 0
  }

  ghost predicate RatesOk(products: map<Id, Product>) { forall k :: k in products ==> products[k].taxRate >= LOWEST_RATE }

  ghost predicate CostsOk(p: Purchasing)
  {
    && (forall k :: k in p.purchaseOrders ==> PositiveCosts(p.purchaseOrders[k].lines))
    && (forall k :: k in p.goodsReceipts ==> PositiveCosts(p.goodsReceipts[k].lines))
    && (forall k :: k in p.purchaseInvoices ==> PositiveCosts(p.purchaseInvoices[k].lines))
  }

  ghost function Credited(p: Purchasing, bill: Id): int { SumMap(p.supplierReturns, CreditFor(bill)) }

  ghost function Paid(p: Purchasing, bill: Id): int { SumMap(p.supplierPayments, PaidFor(bill)) }

  ghost function Owed(p: Purchasing, bill: Id): int
    requires bill in p.purchaseInvoices
  {
    OpenAmount(p.purchaseInvoices[bill].totals.grandTotal, Credited(p, bill), Paid(p, bill))
  }

  /** A payment carries the tenant and branch of its invoice. A return note need not: its handler does not check. */
  predicate Matches(slip: SupplierPayment, bill: PurchaseInvoice)
  {
    slip.branchId == bill.branchId && slip.tenantId == bill.tenantId
  }

  /** Return notes and payments belong to stored invoices, and payments to their tenant and branch. */
  ghost predicate SettlesBills(p: Purchasing)
  {
    && (forall k :: k in p.supplierReturns ==> p.supplierReturns[k].invoiceId in p.purchaseInvoices)
    && (forall k :: k in p.supplierPayments ==>
          p.supplierPayments[k].invoiceId in p.purchaseInvoices
          && Matches(p.supplierPayments[k], p.purchaseInvoices[p.supplierPayments[k].invoiceId]))
  }

  ghost predicate NotesOk(p: Purchasing)
  {
    forall k :: k in p.supplierReturns ==> p.supplierReturns[k].totals.grandTotal >= 0
  }

  ghost predicate SlipsOk(p: Purchasing)
  {
    forall k :: k in p.supplierPayments ==> p.supplierPayments[k].amount > 0 && p.supplierPayments[k].outstandingAfter >= 0
  }

  /** Nothing is ever paid beyond an invoice's total, and every payment recorded a non-negative outstanding amount. */
  ghost predicate PaymentsSafe(p: Purchasing)
  {
    && NotesOk(p) && SlipsOk(p)
    && (forall b :: b in p.purchaseInvoices ==> Paid(p, b) <= Max(0, p.purchaseInvoices[b].totals.grandTotal))
  }

  lemma CreditedNonNegative(p: Purchasing, bill: Id)
    requires NotesOk(p)
    ensures Credited(p, bill) >= 0
  {
    hide SumMap;
    SumMapNonNegative(p.supplierReturns, CreditFor(bill));
  }

  lemma PayKeepsSafe(s: State, c: Call, branch: Id, bill: Id, amount: int, method_: string)
    requires PaymentsSafe(s.purchasing) && amount > 0 && c.ids(0) !in s.purchasing.supplierPayments
    requires Pay(s, c, branch, bill, amount, method_).verdict == Accepted
    ensures var t := Pay(s, c, branch, bill, amount, method_).state;
            && PaymentsSafe(t.purchasing)
            && Paid(t.purchasing, bill) == Paid(s.purchasing, bill) + amount
            && Owed(t.purchasing, bill) == Owed(s.purchasing, bill) - amount
            && (forall b :: b in s.purchasing.purchaseInvoices && b != bill ==>
                  Owed(t.purchasing, b) == Owed(s.purchasing, b))
  {
    hide SumMap, NextNumber, Advance;
    var p, q := s.purchasing, Pay(s, c, branch, bill, amount, method_).state.purchasing;
    var slip := PaymentOf(s, c, branch, bill, amount, method_);
    CreditedNonNegative(p, bill);
    assert q == p.(supplierPayments := p.supplierPayments[c.ids(0) := slip]);
    forall b ensures Paid(q, b) == Paid(p, b) + if b == bill then amount else 0 {
      SumMapInsert(p.supplierPayments, c.ids(0), slip, PaidFor(b));
    }
  }

  lemma CostsArePositive(s: State, lines: seq<Line>, bill: PurchaseInvoice, billId: Id)
    requires RatesOk(s.registry.products) && PositiveCosts(bill.lines) && PositiveLines(lines)
    requires forall i :: 0 <= i < |lines| ==>
      SupplierReturnFault(bill, billId, s.purchasing.supplierReturns, s.registry.products)(lines[i]) == Accepted
    ensures forall k :: k in Map(lines, ReturnCost(s.registry.products, bill.lines)) ==>
      k.quantity > 0 && k.unitCost > 0 && k.taxRate >= LOWEST_RATE
  {
    hide SumMap;
    var costs := Map(lines, ReturnCost(s.registry.products, bill.lines));
    forall i | 0 <= i < |lines| ensures costs[i].quantity > 0 && costs[i].unitCost > 0 && costs[i].taxRate >= LOWEST_RATE {
      FoundLine(bill.lines, lines[i].productId);
    }
  }

  lemma {:induction false} FoundLine(lines: seq<OrderLine>, item: Id)
    ensures var f := FindLine(lines, item);
            && (f.Some? ==> f.value in lines && f.value.productId == item)
            && (f.None? ==> forall l :: l in lines ==> l.productId != item)
  {
    if |lines| > 0 { FoundLine(lines[1..], item); }
  }

  lemma SendBackKeepsSafe(s: State, c: Call, branch: Id, bill: Id, lines: seq<Line>)
    requires PaymentsSafe(s.purchasing) && CostsOk(s.purchasing) && RatesOk(s.registry.products) && PositiveLines(lines)
    requires c.ids(0) !in s.purchasing.supplierReturns
    requires SendBack(s, c, branch, bill, lines).verdict == Accepted
    ensures var t := SendBack(s, c, branch, bill, lines).state;
            && PaymentsSafe(t.purchasing)
            && (forall b :: b in s.purchasing.purchaseInvoices ==> Owed(t.purchasing, b) <= Owed(s.purchasing, b))
  {
    hide SumMap, NextNumber, Advance, Map, PurchaseTotals;
    var p, q := s.purchasing, SendBack(s, c, branch, bill, lines).state.purchasing;
    var invoice := p.purchaseInvoices[bill];
    var note := ReturnNoteOf(s, c, branch, invoice, bill, lines);
    CostsArePositive(s, lines, invoice, bill);
    PurchaseTotalNonNegative(s.registry.suppliers[invoice.supplierId].gstin, s.registry.branches[branch].gstin,
                             Map(lines, ReturnCost(s.registry.products, invoice.lines)));
    assert q == p.(supplierReturns := p.supplierReturns[c.ids(0) := note]);
    forall b ensures Credited(q, b) == Credited(p, b) + CreditFor(b)(note) && Paid(q, b) == Paid(p, b) {
      SumMapInsert(p.supplierReturns, c.ids(0), note, CreditFor(b));
    }
  }

  lemma InvoiceKeepsSafe(s: State, c: Call, branch: Id, receiptId: Id)
    requires PaymentsSafe(s.purchasing) && SettlesBills(s.purchasing) && c.ids(0) !in s.purchasing.purchaseInvoices
    requires InvoiceReceipt(s, c, branch, receiptId).verdict == Accepted
    ensures var t := InvoiceReceipt(s, c, branch, receiptId).state;
            && PaymentsSafe(t.purchasing)
            && (forall b :: b in s.purchasing.purchaseInvoices ==> Owed(t.purchasing, b) == Owed(s.purchasing, b))
  {
    hide SumMap, NextNumber, Advance, Map, PurchaseTotals;
    var p, q := s.purchasing, InvoiceReceipt(s, c, branch, receiptId).state.purchasing;
    SumMapZero(p.supplierPayments, PaidFor(c.ids(0)));
    assert forall b :: Paid(q, b) == Paid(p, b) && Credited(q, b) == Credited(p, b);
  }

  // ---- returned quantities ----

  function InvoicedUnits(lines: seq<OrderLine>, item: Id): int
  {
    var f := FindLine(lines, item);
    if f.Some? then f.value.quantity else 0
  }

  /** No more of a product is ever returned against an invoice than its line for that product invoices. */
  ghost predicate WithinInvoice(bill: PurchaseInvoice, billId: Id, notes: map<Id, SupplierReturnNote>)
  {
    forall item :: Returned(notes, billId, item) <= InvoicedUnits(bill.lines, item)
  }

  ghost predicate ReturnsBounded(p: Purchasing)
  {
    forall b :: b in p.purchaseInvoices ==> WithinInvoice(p.purchaseInvoices[b], b, p.supplierReturns)
  }

  predicate DistinctProducts(lines: seq<Line>)
  {
    forall i, j :: 0 <= i < j < |lines| ==> lines[i].productId != lines[j].productId
  }

  lemma {:induction false} DistinctUnits(lines: seq<Line>, item: Id)
    requires DistinctProducts(lines)
    ensures (forall i :: 0 <= i < |lines| && lines[i].productId == item ==> Sum(lines, Ordered(item)) == lines[i].quantity)
    ensures (forall i :: 0 <= i < |lines| ==> lines[i].productId != item) ==> Sum(lines, Ordered(item)) == 0
  {
    if |lines| > 0 {
      var n := |lines| - 1;
      DistinctUnits(lines[..n], item);
      assert forall i :: 0 <= i < n ==> lines[..n][i] == lines[i];
    }
  }

  ghost predicate AllPass(bill: PurchaseInvoice, billId: Id, notes: map<Id, SupplierReturnNote>, products: map<Id, Product>,
                          lines: seq<Line>)
  {
    forall i :: 0 <= i < |lines| ==> SupplierReturnFault(bill, billId, notes, products)(lines[i]) == Accepted
  }

  /** What has been returned of an item once `lines` are returned on top. */
  ghost predicate WithinAfter(bill: PurchaseInvoice, billId: Id, notes: map<Id, SupplierReturnNote>, lines: seq<Line>)
  {
    forall item :: Returned(notes, billId, item) + Sum(lines, Ordered(item)) <= InvoicedUnits(bill.lines, item)
  }

  lemma DistinctReturnStaysWithin(bill: PurchaseInvoice, billId: Id, notes: map<Id, SupplierReturnNote>,
                                  products: map<Id, Product>, lines: seq<Line>)
    requires DistinctProducts(lines) && AllPass(bill, billId, notes, products, lines) && WithinInvoice(bill, billId, notes)
    ensures WithinAfter(bill, billId, notes, lines)
  {
    hide Sum, SumMap;
    forall item ensures Returned(notes, billId, item) + Sum(lines, Ordered(item)) <= InvoicedUnits(bill.lines, item) {
      assert Returned(notes, billId, item) <= InvoicedUnits(bill.lines, item);
      DistinctUnits(lines, item);
      if i :| 0 <= i < |lines| && lines[i].productId == item {
        assert SupplierReturnFault(bill, billId, notes, products)(lines[i]) == Accepted;
      }
    }
  }

  lemma SendBackStaysBounded(s: State, c: Call, branch: Id, bill: Id, lines: seq<Line>)
    requires ReturnsBounded(s.purchasing) && DistinctProducts(lines) && c.ids(0) !in s.purchasing.supplierReturns
    requires SendBack(s, c, branch, bill, lines).verdict == Accepted
    ensures ReturnsBounded(SendBack(s, c, branch, bill, lines).state.purchasing)
  {
    hide Sum, SumMap, NextNumber, Advance, Map, PurchaseTotals;
    var p, q := s.purchasing, SendBack(s, c, branch, bill, lines).state.purchasing;
    var note := ReturnNoteOf(s, c, branch, p.purchaseInvoices[bill], bill, lines);
    DistinctReturnStaysWithin(p.purchaseInvoices[bill], bill, p.supplierReturns, s.registry.products, lines);
    assert q == p.(supplierReturns := p.supplierReturns[c.ids(0) := note]);
    forall b | b in q.purchaseInvoices ensures WithinInvoice(q.purchaseInvoices[b], b, q.supplierReturns) {
      assert WithinInvoice(p.purchaseInvoices[b], b, p.supplierReturns);
      forall item ensures Returned(q.supplierReturns, b, item) <= InvoicedUnits(q.purchaseInvoices[b].lines, item) {
        SumMapInsert(p.supplierReturns, c.ids(0), note, ReturnedUnits(b, item));
        assert Returned(p.supplierReturns, b, item) <= InvoicedUnits(p.purchaseInvoices[b].lines, item);
      }
    }
  }

  lemma InvoiceStaysBounded(s: State, c: Call, branch: Id, receiptId: Id)
    requires ReturnsBounded(s.purchasing) && SettlesBills(s.purchasing) && CostsOk(s.purchasing)
    requires c.ids(0) !in s.purchasing.purchaseInvoices
    requires InvoiceReceipt(s, c, branch, receiptId).verdict == Accepted
    ensures ReturnsBounded(InvoiceReceipt(s, c, branch, receiptId).state.purchasing)
  {
    hide Sum, SumMap, NextNumber, Advance, Map, PurchaseTotals;
    var p, q := s.purchasing, InvoiceReceipt(s, c, branch, receiptId).state.purchasing;
    forall b | b in q.purchaseInvoices ensures WithinInvoice(q.purchaseInvoices[b], b, q.supplierReturns) {
      if b == c.ids(0) {
        forall item ensures Returned(q.supplierReturns, b, item) <= InvoicedUnits(q.purchaseInvoices[b].lines, item) {
          SumMapZero(p.supplierReturns, ReturnedUnits(b, item));
          FoundLine(q.purchaseInvoices[b].lines, item);
        }
      } else {
        assert WithinInvoice(p.purchaseInvoices[b], b, p.supplierReturns);
      }
    }
  }
}
