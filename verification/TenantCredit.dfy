/**
 * Return notes and tenants. The handler of a supplier return does not check that the invoice belongs to the tenant it is
 * called for, so credit can count for the payment handler without showing in any report of the invoice's tenant.
 */
module TenantCredit {
  import opened Folds
  import opened Inventory
  import opened Entities
  import opened Money
  import opened Taxes
  import opened Numbering
  import opened StateModel
  import opened Handlers
  import opened Frames
  import opened SettlementInvariant
  import opened Consistency
  import opened Solvency
  import opened Middleware
  import opened Crashes
  import opened Runs
  import opened Scenarios
  import opened SupplierPayables
  import opened ReportAgreement
  import opened SettlementLimits

  /** A product at 100.00, untaxed, bought once. */
  const BOUGHT := Deal(2, map["0" := Product("", PRICE, 0)], [OrderLine("0", 100, 10000)])
  const HALF := [Line("0", 50)]
  const ELSEWHERE := Call("elsewhere", From(Zeros(7), 7), 0)

  /** The state after half of it was returned under another tenant's path. */
  ghost function ReturnedElsewhere(): State
  {
    SendBack(Invoiced(BOUGHT), ELSEWHERE, DealBranch(BOUGHT), BillId(BOUGHT), HALF).state
  }

  lemma HalfPasses()
    ensures AllPass(DealBill(BOUGHT), BillId(BOUGHT), map[], BOUGHT.stock, HALF)
    ensures PurchaseTotals(None, None, Map(BOUGHT.lines, Costed(BOUGHT.stock))).grandTotal == 10000
    ensures PurchaseTotals(None, None, Map(HALF, ReturnCost(BOUGHT.stock, BOUGHT.lines))).grandTotal == 5000
  {
    hide SumMap, NextNumber, Zeros, LineCgst, LineSgst, LineIgst, Amount, TaxOn;
    assert FindLine(BOUGHT.lines, "0") == Some(BOUGHT.lines[0]);
    NothingReturned(BillId(BOUGHT), "0");
    var whole, half := CostLine(100, 10000, 0), CostLine(50, 10000, 0);
    assert Map(BOUGHT.lines, Costed(BOUGHT.stock)) == [whole];
    assert Map(HALF, ReturnCost(BOUGHT.stock, BOUGHT.lines)) == [half];
    assert Amount(100, 10000) == 10000 && Amount(50, 10000) == 5000 by { HalfAndWhole(); }
    NoTax(10000);
    NoTax(5000);
    OneAndTwo(half, whole, LineSubtotal());
    OneAndTwo(half, whole, LineTaxTotal());
    OneAndTwo(whole, half, LineSubtotal());
    OneAndTwo(whole, half, LineTaxTotal());
  }

  lemma HalfAndWhole()
    ensures Amount(100, 10000) == 10000 && Amount(50, 10000) == 5000
  {
  }

  lemma BoughtIsReached()
    ensures Sensible(BOUGHT) && Reached(Invoiced(BOUGHT), 0)
  {
    hide Reached, Invoiced, StockOf;
    ShopIsReached(2, [Item("0", 0)], 0);
    assert StockOf([Item("0", 0)]) == BOUGHT.stock by { OneItem(); }
    InvoicedIsReached(BOUGHT, 0);
  }

  lemma OneItem()
    ensures StockOf([Item("0", 0)]) == BOUGHT.stock
  {
    assert [Item("0", 0)][..0] == [];
  }

  lemma HalfIsAccepted()
    ensures var q := ReturnedElsewhere().purchasing;
            && Leads(Invoiced(BOUGHT), ELSEWHERE, ReturnToSupplier(DealBranch(BOUGHT), BillId(BOUGHT), HALF),
                ReturnedElsewhere())
            && q.purchaseInvoices == map[BillId(BOUGHT) := DealBill(BOUGHT)]
            && Credited(q, BillId(BOUGHT)) == 5000 && Paid(q, BillId(BOUGHT)) == 0
            && (forall n :: n in q.supplierReturns ==> q.supplierReturns[n].tenantId == "elsewhere")
  {
    hide Sum, SumMap, Map, PurchaseTotals, NextNumber, Advance, Zeros, SendBack, AllPass, Credited, Paid, Serve, FreshIds,
        Sensible;
    var d := BOUGHT;
    BoughtIsReached();
    HalfPasses();
    NothingSettled(d);
    DealIds(d);
    StagesAreOpen(d, DealOrder(d, NotRequested, None, None));
    assert NewCall(7).ids == ELSEWHERE.ids;
    InvoicedRegistry(d);
    PassedReturn(Invoiced(d), ELSEWHERE, DealBranch(d), BillId(d), HALF);
    ReturnCredits(Invoiced(d), ELSEWHERE, DealBranch(d), BillId(d), HALF);
    BillingIsServed(Invoiced(d), ELSEWHERE, ReturnToSupplier(DealBranch(d), BillId(d), HALF));
  }

  lemma ElsewhereIsReached()
    ensures Reached(ReturnedElsewhere(), 0)
  {
    hide Reached, Leads, Invoiced, ReturnedElsewhere, Credited, Paid, Sensible, DealBill;
    BoughtIsReached();
    HalfIsAccepted();
    LeadsOn(Invoiced(BOUGHT), ELSEWHERE, ReturnToSupplier(DealBranch(BOUGHT), BillId(BOUGHT), HALF),
            ReturnedElsewhere(), 0);
  }

  lemma HalfIsShown(b: Books, p: Purchasing, bill: PurchaseInvoice)
    requires Reports(b, p, "") && SettlesBills(p) && bill.id in p.purchaseInvoices && p.purchaseInvoices[bill.id] == bill
    requires bill.tenantId == "" && bill.totals.grandTotal == 10000
    requires Credited(p, bill.id) == CreditElsewhere(p, "", bill.id) == 5000 && Paid(p, bill.id) == 0
    ensures Owed(p, bill.id) == 5000 && PayableRow(b)(bill).outstanding == 10000
  {
    hide SumMap, Sum, CreditedOn, PaidOn, Credited, Paid, CreditElsewhere, FilterValues, Listing, SettlesBills;
    var ks :| Listing(FilterValues(p.supplierReturns, OwnNote("")), ks, b.notes);
    var js :| Listing(FilterValues(p.supplierPayments, OwnSlip("")), js, b.payments);
    CreditIsListed(b, p, "", ks, bill.id);
    PaidIsListed(b, p, "", js, bill.id);
    OpenIs(b, bill);
  }

  /** The documents of a tenant can always be listed for its reports. */
  lemma BooksExist(p: Purchasing, tenantId: Id)
    ensures exists b :: Reports(b, p, tenantId)
  {
    hide Listing, FilterValues;
    var bills := FilterValues(p.purchaseInvoices, OwnBill(tenantId));
    var notes := FilterValues(p.supplierReturns, OwnNote(tenantId));
    var slips := FilterValues(p.supplierPayments, OwnSlip(tenantId));
    ListingExists(bills);
    ListingExists(notes);
    ListingExists(slips);
    var ks, vs :| Listing(bills, ks, vs);
    var js, ns :| Listing(notes, js, ns);
    var is_, ps :| Listing(slips, is_, ps);
    assert Reports(Books("", 0, vs, ns, ps, map[]), p, tenantId);
  }

  /**
   * The handler of a supplier return does not compare tenants. A return posted under another tenant lowers what the
   * payment handler accepts, and no report of the invoice's tenant shows it.
   */
  lemma SomeCreditIsNotShown()
    ensures var p := ReturnedElsewhere().purchasing;
            && Reached(ReturnedElsewhere(), 0) && BillId(BOUGHT) in p.purchaseInvoices && Owed(p, BillId(BOUGHT)) == 5000
            && (exists b :: Reports(b, p, ""))
            && (forall b :: Reports(b, p, "") ==> PayableRow(b)(DealBill(BOUGHT)).outstanding == 10000)
  {
    hide Reached, Leads, ReturnedElsewhere, Zeros, PurchaseTotals, NextNumber, Credited, Paid, CreditElsewhere, Reports,
        SettlesBills, Map, Owed, PayableRow;
    var p := ReturnedElsewhere().purchasing;
    ElsewhereIsReached();
    HalfIsAccepted();
    HalfPasses();
    AllElsewhere(p, BillId(BOUGHT));
    NoPayments();
    BooksExist(p, "");
    forall b | Reports(b, p, "")
      ensures Owed(p, BillId(BOUGHT)) == 5000 && PayableRow(b)(DealBill(BOUGHT)).outstanding == 10000
    {
      HalfIsShown(b, p, DealBill(BOUGHT));
    }
  }

  lemma AllElsewhere(p: Purchasing, id: Id)
    requires forall n :: n in p.supplierReturns ==> p.supplierReturns[n].tenantId == "elsewhere"
    ensures CreditElsewhere(p, "", id) == Credited(p, id)
  {
    hide SumMap;
    assert "elsewhere" != "" by { assert |"elsewhere"| > |""|; }
    assert FilterValues(p.supplierReturns, Fails(OwnNote(""))) == p.supplierReturns;
  }

  lemma NoPayments()
    ensures SettlesBills(ReturnedElsewhere().purchasing)
  {
    hide SumMap, Map, PurchaseTotals, NextNumber, Advance, Zeros, SendBack, AllPass;
    var d := BOUGHT;
    DealIds(d);
    HalfPasses();
    PassedReturn(Invoiced(d), ELSEWHERE, DealBranch(d), BillId(d), HALF);
  }

  // ---- runs whose returns are posted under their invoice's tenant ----

  /** Every return note carries the tenant of its invoice. */
  ghost predicate NotesOwn(p: Purchasing)
  {
    forall k :: k in p.supplierReturns && p.supplierReturns[k].invoiceId in p.purchaseInvoices ==>
      p.supplierReturns[k].tenantId == p.purchaseInvoices[p.supplierReturns[k].invoiceId].tenantId
  }

  /** The check that the handler of a supplier return leaves out. */
  predicate PostedElsewhere(s: State, c: Call, r: Request)
  {
    && r.ReturnToSupplier? && r.invoiceId in s.purchasing.purchaseInvoices
    && s.purchasing.purchaseInvoices[r.invoiceId].tenantId != c.tenantId
  }

  lemma ReturnOwns(s: State, c: Call, branch: Id, bill: Id, lines: seq<Line>)
    requires SettlesBills(s.purchasing) && FreshIds(s, c.ids) && SendBack(s, c, branch, bill, lines).verdict == Accepted
    ensures NotesOwn(SendBack(s, c, branch, bill, lines).state.purchasing)
       <==> NotesOwn(s.purchasing) && s.purchasing.purchaseInvoices[bill].tenantId == c.tenantId
  {
    hide Map, PurchaseTotals, NextNumber, Advance, FirstFault, SupplierReturnFault;
    assert Unused(s, c.ids(0));
    var p, q := s.purchasing, SendBack(s, c, branch, bill, lines).state.purchasing;
    var note := ReturnNoteOf(s, c, branch, p.purchaseInvoices[bill], bill, lines);
    assert q == p.(supplierReturns := p.supplierReturns[c.ids(0) := note]);
    assert c.ids(0) in q.supplierReturns && q.supplierReturns[c.ids(0)] == note;
    assert forall k :: k in p.supplierReturns ==> k in q.supplierReturns && q.supplierReturns[k] == p.supplierReturns[k];
  }

  lemma InvoiceOwns(s: State, c: Call, branch: Id, receiptId: Id)
    requires SettlesBills(s.purchasing) && FreshIds(s, c.ids)
    requires InvoiceReceipt(s, c, branch, receiptId).verdict == Accepted
    ensures NotesOwn(InvoiceReceipt(s, c, branch, receiptId).state.purchasing) <==> NotesOwn(s.purchasing)
  {
    hide Map, PurchaseTotals, NextNumber, Advance;
    assert Unused(s, c.ids(0));
  }

  lemma PaymentOwns(s: State, c: Call, branch: Id, bill: Id, amount: int, method_: string)
    ensures NotesOwn(Pay(s, c, branch, bill, amount, method_).state.purchasing) <==> NotesOwn(s.purchasing)
  {
    hide SumMap, NextNumber, Advance;
  }

  /** An accepted request leaves all notes with their invoice's tenant exactly when it is no return posted elsewhere. */
  lemma AcceptedOwns(s: State, c: Call, r: Request)
    requires SettlesBills(s.purchasing) && FreshIds(s, c.ids) && Apply(s, c, r).verdict == Accepted
    ensures NotesOwn(Apply(s, c, r).state.purchasing) <==> NotesOwn(s.purchasing) && !PostedElsewhere(s, c, r)
  {
    hide NotesOwn, SettlesBills, FreshIds, SendBack, InvoiceReceipt, Pay, ApplyRegistry, ApplyParty, ApplyBranch,
        ApplyOrdering, ApplyDispute, ApplyStock, ApplySelling, ApplyRefund;
    match r
    case ReturnToSupplier(branch, bill, lines) =>
      ReturnOwns(s, c, branch, bill, lines);
      AcceptedBillIsKnown(s, c, branch, bill, lines);
    case CreatePurchaseInvoice(branch, receipt) => InvoiceOwns(s, c, branch, receipt);
    case PaySupplier(branch, bill, amount, method_) => PaymentOwns(s, c, branch, bill, amount, method_);
    case _ =>
      OtherRequestsSettleNothing(s, c, r);
      SameNotesOwn(s.purchasing, Apply(s, c, r).state.purchasing);
  }

  lemma AcceptedBillIsKnown(s: State, c: Call, branch: Id, bill: Id, lines: seq<Line>)
    requires SendBack(s, c, branch, bill, lines).verdict == Accepted
    ensures bill in s.purchasing.purchaseInvoices
  {
    hide Map, FirstFault;
  }

  lemma SameNotesOwn(p: Purchasing, q: Purchasing)
    requires SameSettlement(p, q)
    ensures NotesOwn(p) <==> NotesOwn(q)
  {
  }

  /** The step accepts a return that is posted under another tenant than its invoice. */
  ghost predicate Misposts(w: World, e: Event)
  {
    && e.Arrived? && Serve(w.mem, e.call, e.request).verdict == Accepted && PostedElsewhere(w.mem, e.call, e.request)
  }

  lemma StepOwns(w: World, e: Event, w': World)
    requires Sound(w) && Step(w, e, w')
    ensures NotesOwn(w'.mem.purchasing) <==> NotesOwn(w.mem.purchasing) && !Misposts(w, e)
  {
    hide FreshIds, Consistent, Ahead, Restore, NotesOwn, SettlesBills, Apply, Blocked, ValidPayload, PostedElsewhere,
        SnapshotOf;
    if e.Arrived? && Serve(w.mem, e.call, e.request).verdict == Accepted {
      FiledById(w.mem);
      AcceptedOwns(w.mem, e.call, e.request);
    } else {
      StepSettlesNothing(w, e, w');
    }
  }

  /** Over every run all notes carry their invoice's tenant exactly when no accepted return was posted elsewhere. */
  lemma {:induction false} RunsOwnNotes(ws: seq<World>, es: seq<Event>, i: nat)
    requires IsRun(ws, es) && i < |ws|
    ensures NotesOwn(ws[i].mem.purchasing) <==> forall k :: 0 <= k < i ==> !Misposts(ws[k], es[k])
  {
    hide Consistent, Ahead, Step, NotesOwn, Misposts;
    if i == 0 {
      assert NotesOwn(EMPTY.purchasing) by { NothingToOwn(); }
    } else {
      RunsOwnNotes(ws, es, i - 1);
      RunsStayConsistent(ws, es, i - 1);
      StepOwns(ws[i - 1], es[i - 1], ws[i]);
    }
  }

  lemma NothingToOwn()
    ensures NotesOwn(EMPTY.purchasing)
  {
  }

  lemma OwnNotesHideNothing(p: Purchasing, tenantId: Id, id: Id)
    requires NotesOwn(p) && id in p.purchaseInvoices && p.purchaseInvoices[id].tenantId == tenantId
    ensures CreditElsewhere(p, tenantId, id) == 0
  {
    hide SumMap;
    SumMapZero(FilterValues(p.supplierReturns, Fails(OwnNote(tenantId))), CreditFor(id));
  }

  /**
   * Over every run whose accepted returns are posted under their invoice's tenant, every report of a tenant shows for
   * each of its invoices the amount that the payment handler checks.
   */
  lemma RunsShowWhatIsOwed(ws: seq<World>, es: seq<Event>, i: nat, b: Books, c: Call, id: Id, amount: int,
                           method_: string)
    requires IsRun(ws, es) && i < |ws| && forall k :: 0 <= k < i ==> !Misposts(ws[k], es[k])
    requires Reports(b, ws[i].mem.purchasing, c.tenantId) && id in ws[i].mem.purchasing.purchaseInvoices
    requires ws[i].mem.purchasing.purchaseInvoices[id].tenantId == c.tenantId
    ensures var v := ws[i].mem.purchasing.purchaseInvoices[id];
            var accepted := Pay(ws[i].mem, c, v.branchId, id, amount, method_).verdict == Accepted;
            && PayableRow(b)(v).outstanding == Owed(ws[i].mem.purchasing, id)
            && (accepted <==> amount <= PayableRow(b)(v).outstanding)
  {
    hide Consistent, Ahead, Step, NotesOwn, Misposts, Reports, Owed, PayableRow, Pay, CreditElsewhere, NotesOk, IsRun;
    var s := ws[i].mem;
    RunsOwnNotes(ws, es, i);
    RunsStayConsistent(ws, es, i);
    OwnNotesHideNothing(s.purchasing, c.tenantId, id);
    ReportsShowTheState(s, b, c, id, amount, method_);
    PaymentIsChecked(s, c, id, amount, method_);
    FiledById(s);
    ShownIsOwed(b, s.purchasing, c.tenantId, id);
  }

  lemma ShownIsOwed(b: Books, p: Purchasing, tenantId: Id, id: Id)
    requires Reports(b, p, tenantId) && SettlesBills(p) && CreditElsewhere(p, tenantId, id) == 0
    requires id in p.purchaseInvoices && p.purchaseInvoices[id].id == id && p.purchaseInvoices[id].tenantId == tenantId
    ensures PayableRow(b)(p.purchaseInvoices[id]).outstanding == Owed(p, id)
  {
    hide Reports, SettlesBills, CreditElsewhere, Owed, CreditedOn, PaidOn, NotesOk;
    OpenIsOwed(b, p, tenantId, id);
    OpenIs(b, p.purchaseInvoices[id]);
  }
}
