/** Document numbers are gap-free per branch and kind in every reachable state. */
module NumberInvariant {
  import opened Folds
  import opened Inventory
  import opened Entities
  import opened Taxes
  import opened Numbering
  import opened StateModel
  import opened Handlers

  function InvoiceTag(): Invoice -> Tag { (d: Invoice) => Tag(d.branchId, d.number) }
  function NoteTag(): CreditNote -> Tag { (d: CreditNote) => Tag(d.branchId, d.number) }
  function BillTag(): PurchaseInvoice -> Tag { (d: PurchaseInvoice) => Tag(d.branchId, d.number) }
  function ReturnTag(): SupplierReturnNote -> Tag { (d: SupplierReturnNote) => Tag(d.branchId, d.number) }
  function SlipTag(): SupplierPayment -> Tag { (d: SupplierPayment) => Tag(d.branchId, d.number) }

  /** All five kinds of document are numbered 1 .. counter without gaps, branch by branch. */
  ghost predicate Numbered(buy: Purchasing, sell: Selling, counters: Counters)
  {
    && GapFree(SalesInvoice, sell.invoices, InvoiceTag(), counters)
    && GapFree(CustomerCreditNote, sell.creditNotes, NoteTag(), counters)
    && GapFree(PurchaseBill, buy.purchaseInvoices, BillTag(), counters)
    && GapFree(SupplierCreditNote, buy.supplierReturns, ReturnTag(), counters)
    && GapFree(SupplierPaymentSlip, buy.supplierPayments, SlipTag(), counters)
  }

  ghost predicate BranchIds(branches: map<Id, Branch>) { forall b :: b in branches ==> NoColon(b) }

  /** Drawing a number of one kind keeps the four others gap-free. */
  lemma OthersStay(buy: Purchasing, sell: Selling, counters: Counters, kind: Kind, branch: Id)
    requires Numbered(buy, sell, counters) && NoColon(branch)
    ensures var after := Advance(counters, kind, branch);
            && (kind != SalesInvoice ==> GapFree(SalesInvoice, sell.invoices, InvoiceTag(), after))
            && (kind != CustomerCreditNote ==> GapFree(CustomerCreditNote, sell.creditNotes, NoteTag(), after))
            && (kind != PurchaseBill ==> GapFree(PurchaseBill, buy.purchaseInvoices, BillTag(), after))
            && (kind != SupplierCreditNote ==> GapFree(SupplierCreditNote, buy.supplierReturns, ReturnTag(), after))
            && (kind != SupplierPaymentSlip ==> GapFree(SupplierPaymentSlip, buy.supplierPayments, SlipTag(), after))
  {
    hide GapFree, Advance, NoColon;
    if kind != SalesInvoice {
      OtherKindKeepsGapFree(SalesInvoice, sell.invoices, InvoiceTag(), counters, kind, branch);
    }
    if kind != CustomerCreditNote {
      OtherKindKeepsGapFree(CustomerCreditNote, sell.creditNotes, NoteTag(), counters, kind, branch);
    }
    if kind != PurchaseBill {
      OtherKindKeepsGapFree(PurchaseBill, buy.purchaseInvoices, BillTag(), counters, kind, branch);
    }
    if kind != SupplierCreditNote {
      OtherKindKeepsGapFree(SupplierCreditNote, buy.supplierReturns, ReturnTag(), counters, kind, branch);
    }
    if kind != SupplierPaymentSlip {
      OtherKindKeepsGapFree(SupplierPaymentSlip, buy.supplierPayments, SlipTag(), counters, kind, branch);
    }
  }

  lemma SellKeepsNumbers(s: State, c: Call, branch: Id, customerId: Option<Id>, gstin: Option<string>, lines: seq<Line>,
      payment: int, method_: string, sessionId: Option<Id>)
    requires Numbered(s.purchasing, s.selling, s.counters) && BranchIds(s.registry.branches)
        && c.ids(0) !in s.selling.invoices
    ensures var t := Sell(s, c, branch, customerId, gstin, lines, payment, method_, sessionId).state;
            Numbered(t.purchasing, t.selling, t.counters)
  {
    hide GapFree, Advance, NextNumber, NoColon, Sum, Map, FirstFault, SettleSession, CountVisit;
    if Sell(s, c, branch, customerId, gstin, lines, payment, method_, sessionId).state.selling != s.selling {
      var invoice := SaleInvoiceOf(s.counters, CatalogueOf(s), s.registry.branches, c, branch, gstin, lines);
      OthersStay(s.purchasing, s.selling, s.counters, SalesInvoice, branch);
      NewDocumentKeepsGapFree(SalesInvoice, s.selling.invoices, InvoiceTag(), s.counters, c.ids(0), invoice);
    }
  }

  lemma TakeBackKeepsNumbers(s: State, c: Call, branch: Id, saleId: Id, lines: seq<Line>, refund: int, mayApprove: bool)
    requires Numbered(s.purchasing, s.selling, s.counters) && BranchIds(s.registry.branches)
        && c.ids(1) !in s.selling.creditNotes
    requires TakeBack(s, c, branch, saleId, lines, refund, mayApprove).verdict == Accepted
    ensures var t := TakeBack(s, c, branch, saleId, lines, refund, mayApprove).state;
            Numbered(t.purchasing, t.selling, t.counters)
  {
    hide GapFree, Advance, NextNumber, NoColon, Sum, Map, FirstFault, FindSaleLine;
    var note := CustomerCredit(s, c, branch, s.selling.sales[saleId], lines);
    OthersStay(s.purchasing, s.selling, s.counters, CustomerCreditNote, branch);
    NewDocumentKeepsGapFree(CustomerCreditNote, s.selling.creditNotes, NoteTag(), s.counters, c.ids(1), note);
  }

  lemma InvoiceKeepsNumbers(s: State, c: Call, branch: Id, receiptId: Id)
    requires Numbered(s.purchasing, s.selling, s.counters) && BranchIds(s.registry.branches)
    requires c.ids(0) !in s.purchasing.purchaseInvoices
    requires InvoiceReceipt(s, c, branch, receiptId).verdict == Accepted
    ensures var t := InvoiceReceipt(s, c, branch, receiptId).state; Numbered(t.purchasing, t.selling, t.counters)
  {
    hide GapFree, Advance, NextNumber, NoColon, Sum, Map, PurchaseTotals;
    var bill := BillOf(s, c, branch, s.purchasing.goodsReceipts[receiptId]);
    OthersStay(s.purchasing, s.selling, s.counters, PurchaseBill, branch);
    NewDocumentKeepsGapFree(PurchaseBill, s.purchasing.purchaseInvoices, BillTag(), s.counters, c.ids(0), bill);
  }

  lemma SendBackKeepsNumbers(s: State, c: Call, branch: Id, bill: Id, lines: seq<Line>)
    requires Numbered(s.purchasing, s.selling, s.counters) && BranchIds(s.registry.branches)
    requires c.ids(0) !in s.purchasing.supplierReturns
    requires SendBack(s, c, branch, bill, lines).verdict == Accepted
    ensures var t := SendBack(s, c, branch, bill, lines).state; Numbered(t.purchasing, t.selling, t.counters)
  {
    hide GapFree, Advance, NextNumber, NoColon, Sum, SumMap, Map, PurchaseTotals, FirstFault;
    var note := ReturnNoteOf(s, c, branch, s.purchasing.purchaseInvoices[bill], bill, lines);
    OthersStay(s.purchasing, s.selling, s.counters, SupplierCreditNote, branch);
    NewDocumentKeepsGapFree(SupplierCreditNote, s.purchasing.supplierReturns, ReturnTag(), s.counters, c.ids(0), note);
  }

  /** A payment draws its number at the invoice's branch, which is a numbered branch itself. */
  lemma PayKeepsNumbers(s: State, c: Call, branch: Id, bill: Id, amount: int, method_: string)
    requires Numbered(s.purchasing, s.selling, s.counters) && c.ids(0) !in s.purchasing.supplierPayments
    requires Pay(s, c, branch, bill, amount, method_).verdict == Accepted
    ensures var t := Pay(s, c, branch, bill, amount, method_).state; Numbered(t.purchasing, t.selling, t.counters)
  {
    hide GapFree, Advance, NextNumber, NoColon, SumMap;
    var slip := PaymentOf(s, c, branch, bill, amount, method_);
    BranchOfNumbered(PurchaseBill, s.purchasing.purchaseInvoices, BillTag(), s.counters, bill);
    OthersStay(s.purchasing, s.selling, s.counters, SupplierPaymentSlip, branch);
    NewDocumentKeepsGapFree(SupplierPaymentSlip, s.purchasing.supplierPayments, SlipTag(), s.counters, c.ids(0), slip);
  }

  lemma BranchOfNumbered<V>(kind: Kind, docs: map<string, V>, tag: V -> Tag, counters: Counters, id: string)
    requires GapFree(kind, docs, tag, counters) && id in docs
    ensures NoColon(tag(docs[id]).branch)
  {
    var n: nat :| Issued(counters, kind, tag(docs[id]), n);
  }
}
