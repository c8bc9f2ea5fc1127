/** Open invoices by due date (supplier_due_schedule.py). */
module SupplierDueSchedule {
  import opened Folds
  import opened Inventory
  import opened Entities
  import opened Ordering
  import opened Handlers
  import opened SupplierPayables

  datatype DueStatus = Overdue | DueToday | DueIn7Days | DueIn8To30Days | DueLater

  datatype DueRecord =
    DueRecord(invoiceId: Id, number: string, supplierId: Id, supplierName: string, invoiceDate: Date, dueDate: Date,
              termsDays: int, grandTotal: int, credited: int, paid: int, outstanding: int, daysUntilDue: int,
                  status: DueStatus)

  datatype DueReport =
    DueReport(openCount: nat, overdueCount: int, overdue: int, dueToday: int, dueIn7Days: int, dueIn8To30Days: int,
              dueLater: int, outstanding: int, records: seq<DueRecord>)

  function ResolveDueStatus(daysUntilDue: int): DueStatus
  {
    if daysUntilDue < 0 then Overdue
    else if daysUntilDue == 0 then DueToday
    else if daysUntilDue <= 7 then DueIn7Days
    else if daysUntilDue <= 30 then DueIn8To30Days
    else DueLater
  }

  function MakeDue(b: Books, v: PurchaseInvoice, credited: int, paid: int): DueRecord
  {
    DueRecord(v.id, v.number, v.supplierId, NameOf(b.suppliers)(v.supplierId), v.invoiceDate, v.dueDate, v.termsDays,
              v.totals.grandTotal, credited, paid, OpenAmount(v.totals.grandTotal, credited, paid), v.dueDate - b.asOf,
              ResolveDueStatus(v.dueDate - b.asOf))
  }

  function DueRow(b: Books): PurchaseInvoice -> DueRecord
  {
    (v: PurchaseInvoice) => MakeDue(b, v, CreditedOn(b)(v.id), PaidOn(b)(v.id))
  }

  function DueAs(k: DueStatus): DueRecord -> int { (r: DueRecord) => if r.status == k then r.outstanding else 0 }

  function IsOverdue(): DueRecord -> int { (r: DueRecord) => if r.status == Overdue then 1 else 0 }

  function DueKey(): DueRecord -> Key { (r: DueRecord) => By(r.dueDate, By(-r.outstanding, ByText(r.number, End))) }

  function DueRows(b: Books): seq<DueRecord> { FilterMap(b.invoices, IsOpen(b), DueRow(b)) }

  function DueSchedule(b: Books): DueReport
  {
    var rows := DueRows(b);
    var o, t, w, m, l := Sum(rows, DueAs(Overdue)), Sum(rows, DueAs(DueToday)), Sum(rows, DueAs(DueIn7Days)),
                         Sum(rows, DueAs(DueIn8To30Days)), Sum(rows, DueAs(DueLater));
    var records := SortBy(rows, DueKey());
    DueReport(|records|, Sum(records, IsOverdue()), o, t, w, m, l, o + t + w + m + l, records)
  }

  method BuildSupplierDueSchedule(b: Books) returns (report: DueReport)
    ensures report == DueSchedule(b)
  {
    hide Sum, FilterMap, CreditedOn, PaidOn, SortBy, ResolveDueStatus, OpenAmount;
    var credited, paid := InvoiceTotals(b);
    var rows: seq<DueRecord> := [];
    var overdue, dueToday, dueIn7Days, dueIn8To30Days, dueLater := 0, 0, 0, 0, 0;
    FilterMapEmpty(b.invoices[..0], IsOpen(b), DueRow(b));
    forall k { SumEmpty(rows, DueAs(k)); }
    for i := 0 to |b.invoices|
      invariant rows == FilterMap(b.invoices[..i], IsOpen(b), DueRow(b))
      invariant overdue == Sum(rows, DueAs(Overdue)) && dueToday == Sum(rows, DueAs(DueToday))
      invariant dueIn7Days == Sum(rows, DueAs(DueIn7Days)) && dueIn8To30Days == Sum(rows, DueAs(DueIn8To30Days))
      invariant dueLater == Sum(rows, DueAs(DueLater))
    {
      var v := b.invoices[i];
      DueRowIs(b, v);
      FilterMapPrefix(b.invoices, i, IsOpen(b), DueRow(b));
      var outstanding := OpenAmount(v.totals.grandTotal, Lookup(credited, v.id), Lookup(paid, v.id));
      if v.branchId == b.branchId && outstanding != 0 {
        var row := MakeDue(b, v, Lookup(credited, v.id), Lookup(paid, v.id));
        forall k { SumSnoc(rows, row, DueAs(k)); }
        rows := rows + [row];
        match row.status {
          case Overdue => overdue := overdue + outstanding;
          case DueToday => dueToday := dueToday + outstanding;
          case DueIn7Days => dueIn7Days := dueIn7Days + outstanding;
          case DueIn8To30Days => dueIn8To30Days := dueIn8To30Days + outstanding;
          case DueLater => dueLater := dueLater + outstanding;
        }
      }
    }
    assert b.invoices[..|b.invoices|] == b.invoices;
    var records := SortBy(rows, DueKey());
    var overdueCount := CountOverdue(records);
    report := DueReport(|records|, overdueCount, overdue, dueToday, dueIn7Days, dueIn8To30Days, dueLater,
                        overdue + dueToday + dueIn7Days + dueIn8To30Days + dueLater, records);
  }

  method CountOverdue(records: seq<DueRecord>) returns (n: int)
    ensures n == Sum(records, IsOverdue())
  {
    n := 0;
    for i := 0 to |records|
      invariant n == Sum(records[..i], IsOverdue())
    {
      SumPrefix(records, i, IsOverdue());
      if records[i].status == Overdue { n := n + 1; }
    }
    assert records[..|records|] == records;
  }

  function DueAmount(): DueRecord -> int { (r: DueRecord) => r.outstanding }

  function NowDue(): DueRecord -> int { (r: DueRecord) => DueAs(Overdue)(r) + DueAs(DueToday)(r) }
  function SoonDue(): DueRecord -> int { (r: DueRecord) => NowDue()(r) + DueAs(DueIn7Days)(r) }
  function MonthDue(): DueRecord -> int { (r: DueRecord) => SoonDue()(r) + DueAs(DueIn8To30Days)(r) }

  lemma DueRowIs(b: Books, v: PurchaseInvoice)
    ensures DueRow(b)(v) == MakeDue(b, v, CreditedOn(b)(v.id), PaidOn(b)(v.id))
    ensures DueRow(b)(v).outstanding == OpenOf(b)(v)
  {
    OpenIs(b, v);
  }

  /** The five buckets split the branch's outstanding total. */
  lemma DueOutstanding(b: Books)
    ensures DueSchedule(b).outstanding == Sum(b.invoices, BranchOpen(b))
  {
    hide CreditedOn, PaidOn, FilterMap, SortBy, Sum;
    var rows := DueRows(b);
    SumAdd(rows, DueAs(Overdue), DueAs(DueToday), NowDue());
    SumAdd(rows, NowDue(), DueAs(DueIn7Days), SoonDue());
    SumAdd(rows, SoonDue(), DueAs(DueIn8To30Days), MonthDue());
    SumAdd(rows, MonthDue(), DueAs(DueLater), DueAmount());
    forall v { DueRowIs(b, v); }
    FilterMapSum(b.invoices, IsOpen(b), DueRow(b), DueAmount(), BranchOpen(b));
  }
}
