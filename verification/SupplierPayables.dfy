/** What every settlement report reads, and the payables report (supplier_payables.py). */
module SupplierPayables {
  import opened Folds
  import opened Inventory
  import opened Entities
  import opened Handlers

  /** The keyword arguments of a settlement report. */
  datatype Books = Books(
    branchId: Id,
    asOf: Date,
    invoices: seq<PurchaseInvoice>,
    notes: seq<SupplierReturnNote>,
    payments: seq<SupplierPayment>,
    suppliers: map<Id, Supplier>)

  const UNKNOWN := "Unknown supplier"

  function NameOf(suppliers: map<Id, Supplier>): Id -> string
  {
    (k: Id) => if k in suppliers then suppliers[k].name else UNKNOWN
  }

  function NoteBill(): SupplierReturnNote -> Id { (n: SupplierReturnNote) => n.invoiceId }
  function NoteTotal(): SupplierReturnNote -> int { (n: SupplierReturnNote) => n.totals.grandTotal }
  function SlipBill(): SupplierPayment -> Id { (p: SupplierPayment) => p.invoiceId }
  function SlipAmount(): SupplierPayment -> int { (p: SupplierPayment) => p.amount }

  function CreditedOn(b: Books): Id -> int { GroupTotal(b.notes, NoteBill(), NoteTotal()) }

  function PaidOn(b: Books): Id -> int { GroupTotal(b.payments, SlipBill(), SlipAmount()) }

  /** What is still open on an invoice: the quantity every report recomputes in its own loop. */
  function OpenOf(b: Books): PurchaseInvoice -> int
  {
    (v: PurchaseInvoice) => OpenAmount(v.totals.grandTotal, CreditedOn(b)(v.id), PaidOn(b)(v.id))
  }

  function AtBranch(b: Books): PurchaseInvoice -> bool { (v: PurchaseInvoice) => v.branchId == b.branchId }

  function IsOpen(b: Books): PurchaseInvoice -> bool
  {
    (v: PurchaseInvoice) => v.branchId == b.branchId && OpenOf(b)(v) != 0
  }

  /** What an invoice contributes to the branch's outstanding total. */
  function BranchOpen(b: Books): PurchaseInvoice -> int
  {
    (v: PurchaseInvoice) => if v.branchId == b.branchId then OpenOf(b)(v) else 0
  }

  function SupplierOf(): PurchaseInvoice -> Id { (v: PurchaseInvoice) => v.supplierId }

  function InvoiceId(): PurchaseInvoice -> Id { (v: PurchaseInvoice) => v.id }

  function Lookup(m: map<Id, int>, k: Id): int { if k in m then m[k] else 0 }

  /** The two dictionaries every report builds first. */
  method InvoiceTotals(b: Books) returns (credited: map<Id, int>, paid: map<Id, int>)
    ensures forall k :: Lookup(credited, k) == CreditedOn(b)(k) && Lookup(paid, k) == PaidOn(b)(k)
  {
    credited := Tally(b.notes, NoteBill(), NoteTotal());
    paid := Tally(b.payments, SlipBill(), SlipAmount());
  }

  // ---- the payables report ----

  datatype SettlementStatus = Unpaid | Settled | PartiallySettled

  datatype PayableRecord =
    PayableRecord(invoiceId: Id, number: string, supplierName: string, grandTotal: int, credited: int, paid: int,
                  outstanding: int, status: SettlementStatus)

  datatype PayablesReport = PayablesReport(invoiced: int, credited: int, paid: int, outstanding: int,
      records: seq<PayableRecord>)

  function StatusAfter(outstanding: int, credited: int, paid: int): SettlementStatus
  {
    if outstanding == 0 then Settled else if credited > 0 || paid > 0 then PartiallySettled else Unpaid
  }

  function MakePayable(v: PurchaseInvoice, name: string, credited: int, paid: int): PayableRecord
  {
    var open := OpenAmount(v.totals.grandTotal, credited, paid);
    PayableRecord(v.id, v.number, name, v.totals.grandTotal, credited, paid, open, StatusAfter(open, credited, paid))
  }

  function PayableRow(b: Books): PurchaseInvoice -> PayableRecord
  {
    (v: PurchaseInvoice) => MakePayable(v, NameOf(b.suppliers)(v.supplierId), CreditedOn(b)(v.id), PaidOn(b)(v.id))
  }

  function RowInvoiced(): PayableRecord -> int { (r: PayableRecord) => r.grandTotal }
  function RowCredited(): PayableRecord -> int { (r: PayableRecord) => r.credited }
  function RowPaid(): PayableRecord -> int { (r: PayableRecord) => r.paid }
  function RowOpen(): PayableRecord -> int { (r: PayableRecord) => r.outstanding }

  function Payables(b: Books): PayablesReport
  {
    var rows := FilterMap(b.invoices, AtBranch(b), PayableRow(b));
    PayablesReport(Sum(rows, RowInvoiced()), Sum(rows, RowCredited()), Sum(rows, RowPaid()), Sum(rows, RowOpen()), rows)
  }

  method BuildSupplierPayablesReport(b: Books) returns (report: PayablesReport)
    ensures report == Payables(b)
  {
    hide Sum, FilterMap, CreditedOn, PaidOn;
    var credited, paid := InvoiceTotals(b);
    var records: seq<PayableRecord> := [];
    var invoicedTotal, creditedTotal, paidTotal, outstanding := 0, 0, 0, 0;
    FilterMapEmpty(b.invoices[..0], AtBranch(b), PayableRow(b));
    SumEmpty(records, RowInvoiced());
    SumEmpty(records, RowCredited());
    SumEmpty(records, RowPaid());
    SumEmpty(records, RowOpen());
    for i := 0 to |b.invoices|
      invariant records == FilterMap(b.invoices[..i], AtBranch(b), PayableRow(b))
      invariant invoicedTotal == Sum(records, RowInvoiced()) && creditedTotal == Sum(records, RowCredited())
      invariant paidTotal == Sum(records, RowPaid()) && outstanding == Sum(records, RowOpen())
    {
      var v := b.invoices[i];
      FilterMapPrefix(b.invoices, i, AtBranch(b), PayableRow(b));
      if v.branchId == b.branchId {
        var row := MakePayable(v, NameOf(b.suppliers)(v.supplierId), Lookup(credited, v.id), Lookup(paid, v.id));
        SumSnoc(records, row, RowInvoiced());
        SumSnoc(records, row, RowCredited());
        SumSnoc(records, row, RowPaid());
        SumSnoc(records, row, RowOpen());
        records := records + [row];
        invoicedTotal, creditedTotal := invoicedTotal + row.grandTotal, creditedTotal + row.credited;
        paidTotal, outstanding := paidTotal + row.paid, outstanding + row.outstanding;
      }
    }
    assert b.invoices[..|b.invoices|] == b.invoices;
    report := PayablesReport(invoicedTotal, creditedTotal, paidTotal, outstanding, records);
  }

  lemma OpenIs(b: Books, v: PurchaseInvoice)
    ensures OpenOf(b)(v) == OpenAmount(v.totals.grandTotal, CreditedOn(b)(v.id), PaidOn(b)(v.id))
    ensures PayableRow(b)(v) == MakePayable(v, NameOf(b.suppliers)(v.supplierId), CreditedOn(b)(v.id), PaidOn(b)(v.id))
  {
  }

  lemma PayablesOutstanding(b: Books)
    ensures Payables(b).outstanding == Sum(b.invoices, BranchOpen(b))
  {
    forall v { OpenIs(b, v); }
    FilterMapSum(b.invoices, AtBranch(b), PayableRow(b), RowOpen(), BranchOpen(b));
  }
}
