/** Disputes per supplier (supplier_exceptions.py). */
module SupplierExceptions {
  import opened Folds
  import opened Inventory
  import opened Entities
  import opened Ordering
  import opened StateModel
  import opened SupplierPayables
  import opened VendorDisputes

  datatype ExceptionStatus = Attention | OpenCases | ResolvedCases

  datatype ExceptionRecord =
    ExceptionRecord(supplierId: Id, supplierName: string, disputeCount: nat, openCount: nat, resolvedCount: nat,
                    overdueOpenCount: nat, latestType: Option<string>, latestReference: Option<Reference>,
                    latestOpenedOn: Option<Date>, status: ExceptionStatus)

  datatype ExceptionReport =
    ExceptionReport(supplierCount: nat, withOpen: int, withOverdue: int, records: seq<ExceptionRecord>)

  function DisputeSupplier(): VendorDispute -> Id { (d: VendorDispute) => d.supplierId }

  function StartException(c: Cases): Id -> ExceptionRecord
  {
    (k: Id) => ExceptionRecord(k, NameOf(c.books.suppliers)(k), 0, 0, 0, 0, None, None, None, ResolvedCases)
  }

  function CountDispute(c: Cases, g: ExceptionRecord, d: VendorDispute): ExceptionRecord
  {
    var g' := g.(disputeCount := g.disputeCount + 1);
    if !d.open then g'.(resolvedCount := g'.resolvedCount + 1)
    else if c.books.asOf - d.openedOn > 7 then g'.(openCount := g'.openCount + 1,
        overdueOpenCount := g'.overdueOpenCount + 1)
    else g'.(openCount := g'.openCount + 1)
  }

  function NoteLatest(bills: map<Id, PurchaseInvoice>, g: ExceptionRecord, d: VendorDispute): ExceptionRecord
  {
    if g.latestOpenedOn.None? || d.openedOn >= g.latestOpenedOn.value
    then g.(latestType := Some(d.disputeType), latestReference := Some(Resolve(bills, d)),
        latestOpenedOn := Some(d.openedOn))
    else g
  }

  function Record(c: Cases, bills: map<Id, PurchaseInvoice>, g: ExceptionRecord, d: VendorDispute): ExceptionRecord
  {
    NoteLatest(bills, CountDispute(c, g, d), d)
  }

  function AddDispute(c: Cases, bills: map<Id, PurchaseInvoice>): (ExceptionRecord, VendorDispute) -> ExceptionRecord
  {
    (g: ExceptionRecord, d: VendorDispute) => Record(c, bills, g, d)
  }

  function StatusOf(g: ExceptionRecord): ExceptionStatus
  {
    if g.overdueOpenCount > 0 then Attention else if g.openCount > 0 then OpenCases else ResolvedCases
  }

  function Judge(): ExceptionRecord -> ExceptionRecord { (g: ExceptionRecord) => g.(status := StatusOf(g)) }

  function Priority(s: ExceptionStatus): int { match s case Attention => 0 case OpenCases => 1 case ResolvedCases => 2 }

  function ExceptionKey(): ExceptionRecord -> Key
  {
    (g: ExceptionRecord) =>
      By(Priority(g.status), By(-(if g.latestOpenedOn.Some? then g.latestOpenedOn.value else 0),
                                ByText(g.supplierName, ByText(g.supplierId, End))))
  }

  function WithOpen(): ExceptionRecord -> int { (g: ExceptionRecord) => if g.openCount > 0 then 1 else 0 }
  function WithOverdue(): ExceptionRecord -> int { (g: ExceptionRecord) => if g.overdueOpenCount > 0 then 1 else 0 }
  function OpenCount(): ExceptionRecord -> int { (g: ExceptionRecord) => g.openCount }
  function OverdueCount(): ExceptionRecord -> int { (g: ExceptionRecord) => g.overdueOpenCount }

  function Mine(c: Cases): seq<VendorDispute> { FilterMap(c.disputes, OfBranch(c), Whole()) }

  function ExceptionGroups(c: Cases): seq<ExceptionRecord>
  {
    Groups(Mine(c), DisputeSupplier(), StartException(c), AddDispute(c, AllBills(c)))
  }

  function GroupFor(c: Cases): Id -> ExceptionRecord
  {
    Grouped(Mine(c), DisputeSupplier(), StartException(c), AddDispute(c, AllBills(c)))
  }

  function ExceptionFor(c: Cases): Id -> ExceptionRecord { (k: Id) => Judge()(GroupFor(c)(k)) }

  function Exceptions(c: Cases): ExceptionReport
  {
    var rows := Map(ExceptionGroups(c), Judge());
    ExceptionReport(|rows|, Sum(rows, WithOpen()), Sum(rows, WithOverdue()), SortBy(rows, ExceptionKey()))
  }

  method BuildSupplierExceptionReport(c: Cases) returns (report: ExceptionReport)
    ensures report == Exceptions(c)
  {
    hide Sum, SortBy, Groups, Map, Rebuild, FilterMap, AddDispute, StartException, StatusOf;
    var bills := Index(c.books.invoices, InvoiceId());
    var mine := Select(c.disputes, OfBranch(c));
    var groups := GroupRecords(mine, DisputeSupplier(), StartException(c), AddDispute(c, bills));
    var records: seq<ExceptionRecord> := [];
    var withOpen, withOverdue := 0, 0;
    MapEmpty(groups[..0], Judge());
    SumEmpty(records, WithOpen());
    SumEmpty(records, WithOverdue());
    for i := 0 to |groups|
      invariant records == Map(groups[..i], Judge()) && |records| == i
      invariant withOpen == Sum(records, WithOpen()) && withOverdue == Sum(records, WithOverdue())
    {
      var g := groups[i];
      var judged := g.(status := StatusOf(g));
      MapPrefix(groups, i, Judge());
      SumSnoc(records, judged, WithOpen());
      SumSnoc(records, judged, WithOverdue());
      if g.openCount > 0 { withOpen := withOpen + 1; }
      if g.overdueOpenCount > 0 { withOverdue := withOverdue + 1; }
      records := records + [judged];
    }
    assert groups[..|groups|] == groups;
    report := ExceptionReport(|records|, withOpen, withOverdue, SortBy(records, ExceptionKey()));
  }

  // ---- what a record says ----

  lemma RecordAdds(c: Cases, bills: map<Id, PurchaseInvoice>, g: ExceptionRecord, d: VendorDispute)
    ensures var g' := Record(c, bills, g, d);
            && g'.disputeCount == g.disputeCount + 1 && g'.openCount == g.openCount + (if d.open then 1 else 0)
            && g'.overdueOpenCount == g.overdueOpenCount + (if d.open && c.books.asOf - d.openedOn > 7 then 1 else 0)
            && g'.resolvedCount == g.resolvedCount + (if d.open then 0 else 1) && g'.supplierId == g.supplierId
  {
  }

  function OneOpen(): VendorDispute -> int { (d: VendorDispute) => if d.open then 1 else 0 }

  function OneLong(c: Cases): VendorDispute -> int
  {
    (d: VendorDispute) => if d.open && c.books.asOf - d.openedOn > 7 then 1 else 0
  }

  lemma RecordsAdd(c: Cases)
    ensures forall g, d :: OpenCount()(AddDispute(c, AllBills(c))(g, d)) == OpenCount()(g) + OneOpen()(d)
    ensures forall g, d :: OverdueCount()(AddDispute(c, AllBills(c))(g, d)) == OverdueCount()(g) + OneLong(c)(d)
  {
    hide Record, AllBills;
    forall g, d
      ensures OpenCount()(AddDispute(c, AllBills(c))(g, d)) == OpenCount()(g) + OneOpen()(d)
      ensures OverdueCount()(AddDispute(c, AllBills(c))(g, d)) == OverdueCount()(g) + OneLong(c)(d)
    {
      RecordAdds(c, AllBills(c), g, d);
    }
  }

  /** Open and long-open disputes of a supplier at the branch. */
  function OpenAgainst(c: Cases): Id -> int { GroupTotal(c.disputes, DisputeSupplier(), BranchCase(c)) }
  function LongAgainst(c: Cases): Id -> int { GroupTotal(c.disputes, DisputeSupplier(), LongCase(c)) }

  /** A supplier's record counts its open disputes and those open for more than seven days. */
  lemma ExceptionCounts(c: Cases, k: Id)
    ensures var e := ExceptionFor(c)(k);
            && e.openCount == OpenAgainst(c)(k) && e.overdueOpenCount == LongAgainst(c)(k)
            && (e.status == Attention <==> LongAgainst(c)(k) > 0) && (e.status == ResolvedCases <==> OpenAgainst(c)(k) == 0)
            && LongAgainst(c)(k) <= OpenAgainst(c)(k)
  {
    hide Sum, FilterMap, AddDispute, AllBills;
    var mine := Mine(c);
    RecordsAdd(c);
    GroupedField(mine, DisputeSupplier(), StartException(c), AddDispute(c, AllBills(c)), OpenCount(), OneOpen(), k);
    GroupedField(mine, DisputeSupplier(), StartException(c), AddDispute(c, AllBills(c)), OverdueCount(), OneLong(c), k);
    FilterMapSum(c.disputes, OfBranch(c), Whole(), Restrict(OneOpen(), DisputeSupplier(), k),
                 Restrict(BranchCase(c), DisputeSupplier(), k));
    FilterMapSum(c.disputes, OfBranch(c), Whole(), Restrict(OneLong(c), DisputeSupplier(), k),
                 Restrict(LongCase(c), DisputeSupplier(), k));
    LongIsOpen(c, c.disputes, k);
    assert ExceptionFor(c)(k) == Judge()(GroupFor(c)(k));
  }

  lemma {:induction false} LongIsOpen(c: Cases, ds: seq<VendorDispute>, k: Id)
    ensures 0 <= Sum(ds, Restrict(LongCase(c), DisputeSupplier(), k)) <= Sum(ds,
        Restrict(BranchCase(c), DisputeSupplier(), k))
  {
    if |ds| > 0 { LongIsOpen(c, ds[..|ds| - 1], k); }
  }

  /** Open counts over all suppliers add up to the board's open count. */
  lemma ExceptionsCoverBoard(c: Cases)
    ensures Sum(Exceptions(c).records, OpenCount()) == Board(c).openCount
  {
    hide Sum, FilterMap, AddDispute, AllBills, SortBy, Groups, Map, Board;
    var rows := Map(ExceptionGroups(c), Judge());
    SumPermuted(rows, Exceptions(c).records, OpenCount());
    MapSum(ExceptionGroups(c), Judge(), OpenCount(), OpenCount());
    RecordsAdd(c);
    GroupsTotal(Mine(c), DisputeSupplier(), StartException(c), AddDispute(c, AllBills(c)), OpenCount(), OneOpen());
    FilterMapSum(c.disputes, OfBranch(c), Whole(), OneOpen(), BranchCase(c));
    BoardCounts(c);
  }

  predicate CaseOf(ds: seq<VendorDispute>, k: Id, i: int) { 0 <= i < |ds| && ds[i].supplierId == k }

  /** The dispute shown is the most recently opened one, the last of them on a tie. */
  ghost predicate LatestIs(bills: map<Id, PurchaseInvoice>, ds: seq<VendorDispute>, k: Id, g: ExceptionRecord)
  {
    && (g.latestOpenedOn.None? ==> forall i :: !CaseOf(ds, k, i))
    && (g.latestOpenedOn.Some? ==> exists i ::
          && CaseOf(ds, k, i) && g.latestOpenedOn == Some(ds[i].openedOn) && g.latestType == Some(ds[i].disputeType)
          && g.latestReference == Some(Resolve(bills, ds[i]))
          && (forall j :: CaseOf(ds, k, j) ==> ds[j].openedOn <= ds[i].openedOn)
          && (forall j :: CaseOf(ds, k, j) && j > i ==> ds[j].openedOn < ds[i].openedOn))
  }

  lemma {:induction false} LatestDispute(c: Cases, bills: map<Id, PurchaseInvoice>, ds: seq<VendorDispute>, k: Id)
    ensures LatestIs(bills, ds, k, GroupFold(ds, DisputeSupplier(), StartException(c), AddDispute(c, bills), k))
  {
    hide Resolve;
    if |ds| > 0 {
      var n := |ds| - 1;
      var front := ds[..n];
      LatestDispute(c, bills, front, k);
      assert forall i :: CaseOf(ds, k, i) <==> CaseOf(front, k, i) || (i == n && ds[n].supplierId == k);
      assert forall i :: CaseOf(front, k, i) ==> front[i] == ds[i];
      var g := GroupFold(front, DisputeSupplier(), StartException(c), AddDispute(c, bills), k);
      if CaseOf(ds, k, n) { LatestStep(c, bills, g, ds[n]); }
    }
  }

  lemma LatestStep(c: Cases, bills: map<Id, PurchaseInvoice>, g: ExceptionRecord, d: VendorDispute)
    ensures var g' := Record(c, bills, g, d);
            && g'.latestOpenedOn == NoteLatest(bills, g, d).latestOpenedOn
                && g'.latestType == NoteLatest(bills, g, d).latestType
            && g'.latestReference == NoteLatest(bills, g, d).latestReference
  {
  }
}
