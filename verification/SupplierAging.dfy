/** Open invoices by age (supplier_aging.py). */
module SupplierAging {
  import opened Folds
  import opened Inventory
  import opened Entities
  import opened Money
  import opened Ordering
  import opened Handlers
  import opened SupplierPayables

  datatype Bucket = Current | Days1To30 | Days31To60 | Days61Plus

  datatype AgingRecord =
    AgingRecord(invoiceId: Id, number: string, supplierName: string, invoiceDate: Date, ageDays: int, grandTotal: int,
                credited: int, paid: int, outstanding: int, bucket: Bucket)

  datatype AgingReport =
    AgingReport(openCount: nat, current: int, days1To30: int, days31To60: int, days61Plus: int, outstanding: int,
                records: seq<AgingRecord>)

  function BucketOf(ageDays: int): Bucket
  {
    if ageDays <= 0 then Current else if ageDays <= 30 then Days1To30 else if ageDays <= 60 then Days31To60 else Days61Plus
  }

  function AgeOf(b: Books): PurchaseInvoice -> int { (v: PurchaseInvoice) => Max(0, b.asOf - v.invoiceDate) }

  function MakeAging(b: Books, v: PurchaseInvoice, credited: int, paid: int): AgingRecord
  {
    var age := AgeOf(b)(v);
    AgingRecord(v.id, v.number, NameOf(b.suppliers)(v.supplierId), v.invoiceDate, age, v.totals.grandTotal, credited, paid,
                OpenAmount(v.totals.grandTotal, credited, paid), BucketOf(age))
  }

  function AgingRow(b: Books): PurchaseInvoice -> AgingRecord
  {
    (v: PurchaseInvoice) => MakeAging(b, v, CreditedOn(b)(v.id), PaidOn(b)(v.id))
  }

  function InBucket(k: Bucket): AgingRecord -> int { (r: AgingRecord) => if r.bucket == k then r.outstanding else 0 }

  function AgingKey(): AgingRecord -> Key
  {
    (r: AgingRecord) => By(-r.ageDays, By(-r.outstanding, ByText(r.number, End)))
  }

  function Aging(b: Books): AgingReport
  {
    var rows := FilterMap(b.invoices, IsOpen(b), AgingRow(b));
    var c, x, y, z := Sum(rows, InBucket(Current)), Sum(rows, InBucket(Days1To30)), Sum(rows, InBucket(Days31To60)),
                      Sum(rows, InBucket(Days61Plus));
    AgingReport(|rows|, c, x, y, z, c + x + y + z, SortBy(rows, AgingKey()))
  }

  method BuildSupplierAgingReport(b: Books) returns (report: AgingReport)
    ensures report == Aging(b)
  {
    hide Sum, FilterMap, CreditedOn, PaidOn, SortBy, BucketOf, OpenAmount;
    var credited, paid := InvoiceTotals(b);
    var records: seq<AgingRecord> := [];
    var current, days1To30, days31To60, days61Plus := 0, 0, 0, 0;
    FilterMapEmpty(b.invoices[..0], IsOpen(b), AgingRow(b));
    forall k { SumEmpty(records, InBucket(k)); }
    for i := 0 to |b.invoices|
      invariant records == FilterMap(b.invoices[..i], IsOpen(b), AgingRow(b))
      invariant current == Sum(records, InBucket(Current)) && days1To30 == Sum(records, InBucket(Days1To30))
      invariant days31To60 == Sum(records, InBucket(Days31To60)) && days61Plus == Sum(records, InBucket(Days61Plus))
    {
      var v := b.invoices[i];
      AgingRowIs(b, v);
      FilterMapPrefix(b.invoices, i, IsOpen(b), AgingRow(b));
      var outstanding := OpenAmount(v.totals.grandTotal, Lookup(credited, v.id), Lookup(paid, v.id));
      if v.branchId == b.branchId && outstanding != 0 {
        var row := MakeAging(b, v, Lookup(credited, v.id), Lookup(paid, v.id));
        forall k { SumSnoc(records, row, InBucket(k)); }
        records := records + [row];
        match row.bucket {
          case Current => current := current + outstanding;
          case Days1To30 => days1To30 := days1To30 + outstanding;
          case Days31To60 => days31To60 := days31To60 + outstanding;
          case Days61Plus => days61Plus := days61Plus + outstanding;
        }
      }
    }
    assert b.invoices[..|b.invoices|] == b.invoices;
    report := AgingReport(|records|, current, days1To30, days31To60, days61Plus,
                          current + days1To30 + days31To60 + days61Plus, SortBy(records, AgingKey()));
  }

  /** What an invoice contributes to an age bucket of its branch. */
  function BranchBucket(b: Books, k: Bucket): PurchaseInvoice -> int
  {
    (v: PurchaseInvoice) => if v.branchId == b.branchId && BucketOf(AgeOf(b)(v)) == k then OpenOf(b)(v) else 0
  }

  function BucketTotal(report: AgingReport, k: Bucket): int
  {
    match k
    case Current => report.current
    case Days1To30 => report.days1To30
    case Days31To60 => report.days31To60
    case Days61Plus => report.days61Plus
  }

  lemma AgingRowIs(b: Books, v: PurchaseInvoice)
    ensures AgingRow(b)(v) == MakeAging(b, v, CreditedOn(b)(v.id), PaidOn(b)(v.id))
    ensures AgingRow(b)(v).outstanding == OpenOf(b)(v) && AgingRow(b)(v).bucket == BucketOf(AgeOf(b)(v))
  {
    OpenIs(b, v);
  }

  lemma AgingBuckets(b: Books, k: Bucket)
    ensures BucketTotal(Aging(b), k) == Sum(b.invoices, BranchBucket(b, k))
  {
    hide CreditedOn, PaidOn, FilterMap, SortBy;
    forall v { AgingRowIs(b, v); }
    FilterMapSum(b.invoices, IsOpen(b), AgingRow(b), InBucket(k), BranchBucket(b, k));
  }

  function RowOutstanding(): AgingRecord -> int { (r: AgingRecord) => r.outstanding }

  function EarlyBuckets(): AgingRecord -> int { (r: AgingRecord) => InBucket(Current)(r) + InBucket(Days1To30)(r) }
  function LateBuckets(): AgingRecord -> int { (r: AgingRecord) => InBucket(Days31To60)(r) + InBucket(Days61Plus)(r) }

  /** The four buckets split the branch's outstanding total. */
  lemma AgingOutstanding(b: Books)
    ensures Aging(b).outstanding == Sum(b.invoices, BranchOpen(b))
  {
    hide CreditedOn, PaidOn, FilterMap, SortBy, Sum;
    var rows := FilterMap(b.invoices, IsOpen(b), AgingRow(b));
    SumAdd(rows, InBucket(Current), InBucket(Days1To30), EarlyBuckets());
    SumAdd(rows, InBucket(Days31To60), InBucket(Days61Plus), LateBuckets());
    SumAdd(rows, EarlyBuckets(), LateBuckets(), RowOutstanding());
    forall v { AgingRowIs(b, v); }
    FilterMapSum(b.invoices, IsOpen(b), AgingRow(b), RowOutstanding(), BranchOpen(b));
  }
}
