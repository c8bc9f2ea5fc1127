/** Independent report loops over the same documents agree with each other and with the state they were taken from. */
module ReportAgreement {
  import opened Folds
  import opened Inventory
  import opened Entities
  import opened Numbering
  import opened StateModel
  import opened Handlers
  import opened SettlementInvariant
  import opened ChainInvariant
  import opened Consistency
  import opened SupplierPayables
  import opened SupplierAging
  import opened SupplierDueSchedule
  import opened SupplierStatements
  import opened SupplierPaymentRun
  import opened SupplierSettlement
  import opened SupplierPaymentRegister

  /** Six reports, six loops, one outstanding total. */
  lemma SixReportsAgree(b: Books)
    ensures Payables(b).outstanding == Aging(b).outstanding == DueSchedule(b).outstanding == Statements(b).outstanding
         == PaymentRun(b).outstanding == Settlement(b).outstanding
  {
    hide Payables, Aging, DueSchedule, Statements, PaymentRun, Settlement, Sum;
    PayablesOutstanding(b);
    AgingOutstanding(b);
    DueOutstanding(b);
    StatementOutstanding(b);
    RunOutstanding(b);
    SettlementOutstanding(b);
  }

  /** Supplier by supplier, the statement, the payment run and the settlement report owe the same. */
  lemma SuppliersAgree(b: Books, k: Id)
    ensures StatementFor(b)(k).outstanding == RunFor(b)(k).outstanding == SettlementFor(b)(k).outstanding
         == SupplierOpen(b)(k)
  {
    hide StatementFor, RunFor, SettlementFor, SupplierOpen;
    StatementOwes(b, k);
    SettlementMatchesRun(b, k);
  }

  // ---- what the reports show and what the payment handler checks ----

  function OwnBill(tenantId: Id): PurchaseInvoice -> bool { (v: PurchaseInvoice) => v.tenantId == tenantId }
  function OwnNote(tenantId: Id): SupplierReturnNote -> bool { (n: SupplierReturnNote) => n.tenantId == tenantId }
  function OwnSlip(tenantId: Id): SupplierPayment -> bool { (x: SupplierPayment) => x.tenantId == tenantId }

  /** `b` lists the settlement documents of a tenant, in any order: what its report routes hand on. */
  ghost predicate Reports(b: Books, p: Purchasing, tenantId: Id)
  {
    && (exists ks :: Listing(FilterValues(p.purchaseInvoices, OwnBill(tenantId)), ks, b.invoices))
    && (exists ks :: Listing(FilterValues(p.supplierReturns, OwnNote(tenantId)), ks, b.notes))
    && (exists ks :: Listing(FilterValues(p.supplierPayments, OwnSlip(tenantId)), ks, b.payments))
  }

  /** Credit on an invoice from return notes that were posted under another tenant. */
  ghost function CreditElsewhere(p: Purchasing, tenantId: Id, id: Id): int
  {
    SumMap(FilterValues(p.supplierReturns, Fails(OwnNote(tenantId))), CreditFor(id))
  }

  lemma {:induction false} CreditIsListed(b: Books, p: Purchasing, tenantId: Id, ks: seq<Id>, id: Id)
    requires Listing(FilterValues(p.supplierReturns, OwnNote(tenantId)), ks, b.notes)
    ensures CreditedOn(b)(id) + CreditElsewhere(p, tenantId, id) == Credited(p, id)
  {
    hide Sum, SumMap, Listing, FilterValues;
    ListingSum(FilterValues(p.supplierReturns, OwnNote(tenantId)), ks, b.notes, CreditFor(id));
    SumSame(b.notes, CreditFor(id), Restrict(NoteTotal(), NoteBill(), id));
    SumMapSplit(p.supplierReturns, OwnNote(tenantId), CreditFor(id));
  }

  lemma {:induction false} PaidIsListed(b: Books, p: Purchasing, tenantId: Id, ks: seq<Id>, id: Id)
    requires Listing(FilterValues(p.supplierPayments, OwnSlip(tenantId)), ks, b.payments)
    requires SettlesBills(p) && id in p.purchaseInvoices && p.purchaseInvoices[id].tenantId == tenantId
    ensures PaidOn(b)(id) == Paid(p, id)
  {
    hide Sum, SumMap, Listing;
    ListingSum(FilterValues(p.supplierPayments, OwnSlip(tenantId)), ks, b.payments, PaidFor(id));
    SumSame(b.payments, PaidFor(id), Restrict(SlipAmount(), SlipBill(), id));
    SumMapSplit(p.supplierPayments, OwnSlip(tenantId), PaidFor(id));
    SumMapZero(FilterValues(p.supplierPayments, Fails(OwnSlip(tenantId))), PaidFor(id));
  }

  lemma ElsewhereNonNegative(p: Purchasing, tenantId: Id, id: Id)
    requires NotesOk(p)
    ensures CreditElsewhere(p, tenantId, id) >= 0
  {
    hide SumMap;
    SumMapNonNegative(FilterValues(p.supplierReturns, Fails(OwnNote(tenantId))), CreditFor(id));
  }

  /** What is shown as open and what is owed differ by the credit posted under other tenants only. */
  lemma OpenIsOwed(b: Books, p: Purchasing, tenantId: Id, id: Id)
    requires Reports(b, p, tenantId) && SettlesBills(p)
    requires id in p.purchaseInvoices && p.purchaseInvoices[id].id == id && p.purchaseInvoices[id].tenantId == tenantId
    ensures NotesOk(p) ==> (OpenOf(b)(p.purchaseInvoices[id]) == Owed(p, id)
              <==> CreditElsewhere(p, tenantId, id) == 0 || OpenOf(b)(p.purchaseInvoices[id]) == 0)
    ensures CreditElsewhere(p, tenantId, id) == 0 ==> OpenOf(b)(p.purchaseInvoices[id]) == Owed(p, id)
  {
    hide Sum, SumMap, CreditedOn, PaidOn, Listing, FilterValues, SettlesBills, NotesOk, CreditElsewhere, Credited, Paid;
    var ks :| Listing(FilterValues(p.supplierReturns, OwnNote(tenantId)), ks, b.notes);
    var js :| Listing(FilterValues(p.supplierPayments, OwnSlip(tenantId)), js, b.payments);
    CreditIsListed(b, p, tenantId, ks, id);
    PaidIsListed(b, p, tenantId, js, id);
    OpenIs(b, p.purchaseInvoices[id]);
    if NotesOk(p) { ElsewhereNonNegative(p, tenantId, id); }
  }

  /**
   * Reports taken from a consistent state are well filed. What they show as open on an invoice is what the payment
   * handler checks, exactly when no credit on it was posted under another tenant or nothing is shown as open.
   */
  lemma ReportsShowTheState(s: State, b: Books, c: Call, id: Id, amount: int, method_: string)
    requires Consistent(s) && Reports(b, s.purchasing, c.tenantId) && id in s.purchasing.purchaseInvoices
    requires s.purchasing.purchaseInvoices[id].tenantId == c.tenantId
    ensures WellFiled(b) && s.purchasing.purchaseInvoices[id] in b.invoices
    ensures var v := s.purchasing.purchaseInvoices[id];
            var shown, elsewhere := PayableRow(b)(v).outstanding, CreditElsewhere(s.purchasing, c.tenantId, id);
            && (NotesOk(s.purchasing) ==>
                  (shown == Owed(s.purchasing, id) <==> elsewhere == 0 || shown == 0))
            && (elsewhere == 0 ==>
                  (Pay(s, c, v.branchId, id, amount, method_).verdict == Accepted <==> amount <= shown))
  {
    hide Consistent, Owed, Pay, CreditedOn, PaidOn, WellFiled, SettlesBills, NotesOk, CreditElsewhere, FilterValues;
    var p := s.purchasing;
    FiledById(s);
    OpenIsOwed(b, p, c.tenantId, id);
    OpenIs(b, p.purchaseInvoices[id]);
    ListedWell(b, p, c.tenantId);
    PaymentIsChecked(s, c, id, amount, method_);
    OwnIsListed(b, p, c.tenantId, id);
  }

  lemma OwnIsListed(b: Books, p: Purchasing, tenantId: Id, id: Id)
    requires Reports(b, p, tenantId) && id in p.purchaseInvoices && p.purchaseInvoices[id].tenantId == tenantId
    ensures p.purchaseInvoices[id] in b.invoices
  {
    var ks :| Listing(FilterValues(p.purchaseInvoices, OwnBill(tenantId)), ks, b.invoices);
    assert id in FilterValues(p.purchaseInvoices, OwnBill(tenantId));
    var i :| 0 <= i < |ks| && ks[i] == id;
    assert b.invoices[i] == p.purchaseInvoices[id];
  }

  lemma PaymentIsChecked(s: State, c: Call, id: Id, amount: int, method_: string)
    requires id in s.purchasing.purchaseInvoices && s.purchasing.purchaseInvoices[id].tenantId == c.tenantId
    ensures Pay(s, c, s.purchasing.purchaseInvoices[id].branchId, id, amount, method_).verdict == Accepted
       <==> amount <= Owed(s.purchasing, id)
  {
    hide SumMap, NextNumber, Advance;
  }

  lemma FiledById(s: State)
    requires Consistent(s)
    ensures forall k :: k in s.purchasing.purchaseInvoices ==> s.purchasing.purchaseInvoices[k].id == k
    ensures SettlesBills(s.purchasing)
  {
    hide SettlesBills, LotsOk, ReceiptsOk, FromReceipt;
  }

  lemma ListedWell(b: Books, p: Purchasing, tenantId: Id)
    requires Reports(b, p, tenantId) && SettlesBills(p)
    requires forall k :: k in p.purchaseInvoices ==> p.purchaseInvoices[k].id == k
    ensures WellFiled(b)
  {
    hide SettlesBills, Listing;
    var bills := FilterValues(p.purchaseInvoices, OwnBill(tenantId));
    var slips := FilterValues(p.supplierPayments, OwnSlip(tenantId));
    var ks :| Listing(bills, ks, b.invoices);
    var js :| Listing(slips, js, b.payments);
    ListedIds(bills, ks, b.invoices);
    forall x, v | x in b.payments && v in b.invoices && x.invoiceId == v.id ensures x.branchId == v.branchId {
      ListedIsStored(bills, ks, b.invoices, v);
      ListedIsStored(slips, js, b.payments, x);
      FiledAtBranch(p, x, v);
    }
  }

  lemma ListedIds(m: Bills, ks: seq<Id>, xs: seq<PurchaseInvoice>)
    requires Listing(m, ks, xs) && forall k :: k in m ==> m[k].id == k
    ensures NoDuplicates(Map(xs, InvoiceId()))
  {
    assert Map(xs, InvoiceId()) == ks;
  }

  lemma ListedIsStored<V>(m: map<Id, V>, ks: seq<Id>, xs: seq<V>, x: V)
    requires Listing(m, ks, xs) && x in xs
    ensures exists k :: k in m && m[k] == x
  {
    var i :| 0 <= i < |xs| && xs[i] == x;
    assert m[ks[i]] == x;
  }

  lemma FiledAtBranch(p: Purchasing, x: SupplierPayment, v: PurchaseInvoice)
    requires SettlesBills(p) && (forall k :: k in p.purchaseInvoices ==> p.purchaseInvoices[k].id == k)
    requires (exists j :: j in p.supplierPayments && p.supplierPayments[j] == x) && x.invoiceId == v.id
    requires exists k :: k in p.purchaseInvoices && p.purchaseInvoices[k] == v
    ensures x.branchId == v.branchId
  {
  }
}
