/** The dispute board of a branch (vendor_disputes.py). */
module VendorDisputes {
  import opened Folds
  import opened Inventory
  import opened Entities
  import opened Money
  import opened Ordering
  import opened StateModel
  import opened SupplierPayables

  /** Settlement documents and disputes, as the dispute reports receive them. */
  datatype Cases = Cases(books: Books, disputes: seq<VendorDispute>)

  datatype Reference = ToInvoice(number: string) | ToReceipt(receiptId: Option<Id>)

  datatype DisputeRecord =
    DisputeRecord(disputeId: Id, supplierId: Id, supplierName: string, reference: Reference, disputeType: string,
        open: bool, openedOn: Date, resolvedOn: Option<Date>, ageDays: int, overdue: bool)

  datatype DisputeBoard = DisputeBoard(openCount: int, resolvedCount: int, overdueOpenCount: int,
      records: seq<DisputeRecord>)

  function AllBills(c: Cases): map<Id, PurchaseInvoice> { Rebuild(c.books.invoices, InvoiceId(), Whole()) }

  function Resolve(bills: map<Id, PurchaseInvoice>, d: VendorDispute): Reference
  {
    if d.invoiceId.Some? then ToInvoice(if d.invoiceId.value in bills then bills[d.invoiceId.value].number
        else d.invoiceId.value)
    else ToReceipt(d.receiptId)
  }

  function AgeDays(c: Cases, d: VendorDispute): int { Max(0, c.books.asOf - d.openedOn) }

  function MakeDispute(c: Cases, bills: map<Id, PurchaseInvoice>, d: VendorDispute): DisputeRecord
  {
    var age := AgeDays(c, d);
    DisputeRecord(d.id, d.supplierId, NameOf(c.books.suppliers)(d.supplierId), Resolve(bills, d), d.disputeType, d.open,
        d.openedOn, d.resolvedOn, age, d.open && age > 7)
  }

  function DisputeRow(c: Cases): VendorDispute -> DisputeRecord { (d: VendorDispute) => MakeDispute(c, AllBills(c), d) }

  function OfBranch(c: Cases): VendorDispute -> bool { (d: VendorDispute) => d.branchId == c.books.branchId }

  function OpenRow(): DisputeRecord -> int { (r: DisputeRecord) => if r.open then 1 else 0 }
  function ResolvedRow(): DisputeRecord -> int { (r: DisputeRecord) => if r.open then 0 else 1 }
  function OverdueRow(): DisputeRecord -> int { (r: DisputeRecord) => if r.overdue then 1 else 0 }

  function BoardKey(): DisputeRecord -> Key
  {
    (r: DisputeRecord) =>
      By(if r.open then 0 else 1, By(if r.overdue then -1 else 0,
          By(-r.ageDays, ByText(r.supplierName, ByText(r.disputeId, End)))))
  }

  function BoardRows(c: Cases): seq<DisputeRecord> { FilterMap(c.disputes, OfBranch(c), DisputeRow(c)) }

  function Board(c: Cases): DisputeBoard
  {
    var rows := BoardRows(c);
    DisputeBoard(Sum(rows, OpenRow()), Sum(rows, ResolvedRow()), Sum(rows, OverdueRow()), SortBy(rows, BoardKey()))
  }

  method BuildVendorDisputeBoard(c: Cases) returns (board: DisputeBoard)
    ensures board == Board(c)
  {
    hide Sum, FilterMap, SortBy, Resolve, Rebuild;
    var bills := Index(c.books.invoices, InvoiceId());
    var records: seq<DisputeRecord> := [];
    var openCount, resolvedCount, overdueOpenCount := 0, 0, 0;
    FilterMapEmpty(c.disputes[..0], OfBranch(c), DisputeRow(c));
    SumEmpty(records, OpenRow());
    SumEmpty(records, ResolvedRow());
    SumEmpty(records, OverdueRow());
    for i := 0 to |c.disputes|
      invariant records == FilterMap(c.disputes[..i], OfBranch(c), DisputeRow(c))
      invariant openCount == Sum(records, OpenRow()) && resolvedCount == Sum(records, ResolvedRow())
      invariant overdueOpenCount == Sum(records, OverdueRow())
    {
      var d := c.disputes[i];
      FilterMapPrefix(c.disputes, i, OfBranch(c), DisputeRow(c));
      if d.branchId == c.books.branchId {
        var row := MakeDispute(c, bills, d);
        SumSnoc(records, row, OpenRow());
        SumSnoc(records, row, ResolvedRow());
        SumSnoc(records, row, OverdueRow());
        if row.open {
          openCount := openCount + 1;
          if row.overdue { overdueOpenCount := overdueOpenCount + 1; }
        } else {
          resolvedCount := resolvedCount + 1;
        }
        records := records + [row];
      }
    }
    assert c.disputes[..|c.disputes|] == c.disputes;
    board := DisputeBoard(openCount, resolvedCount, overdueOpenCount, SortBy(records, BoardKey()));
  }

  /** One for every open dispute of the branch. */
  function BranchCase(c: Cases): VendorDispute -> int
  {
    (d: VendorDispute) => if d.branchId == c.books.branchId && d.open then 1 else 0
  }

  predicate LongOpen(c: Cases, d: VendorDispute)
  {
    d.branchId == c.books.branchId && d.open && c.books.asOf - d.openedOn > 7
  }

  /** One for every dispute of the branch that has been open for more than seven days. */
  function LongCase(c: Cases): VendorDispute -> int { (d: VendorDispute) => if LongOpen(c, d) then 1 else 0 }

  lemma DisputeRowIs(c: Cases, d: VendorDispute)
    ensures DisputeRow(c)(d) == MakeDispute(c, AllBills(c), d)
    ensures var r := DisputeRow(c)(d);
            && r.disputeId == d.id && r.supplierId == d.supplierId && r.open == d.open && r.ageDays == AgeDays(c, d)
            && r.overdue == (d.open && AgeDays(c, d) > 7)
  {
    hide AllBills;
  }

  lemma BoardCounts(c: Cases)
    ensures Board(c).openCount == Sum(c.disputes, BranchCase(c))
    ensures Board(c).overdueOpenCount == Sum(c.disputes, LongCase(c))
  {
    hide Sum, FilterMap, AllBills, SortBy, MakeDispute;
    forall d { DisputeRowIs(c, d); }
    FilterMapSum(c.disputes, OfBranch(c), DisputeRow(c), OpenRow(), BranchCase(c));
    FilterMapSum(c.disputes, OfBranch(c), DisputeRow(c), OverdueRow(), LongCase(c));
  }
}
