/** Suppliers that are owed money and have open disputes (supplier_settlement_blockers.py). */
module SupplierSettlementBlockers {
  import opened Folds
  import opened Inventory
  import opened Entities
  import opened Ordering
  import opened StateModel
  import opened SupplierPayables
  import opened SupplierDueSchedule
  import opened SupplierStatements
  import opened SupplierPaymentRun
  import opened VendorDisputes
  import opened SupplierExceptions

  datatype Hold = HardHold | SoftHold

  datatype BlockerRecord =
    BlockerRecord(supplierId: Id, supplierName: string, hold: Hold, openCount: nat, overdueOpenCount: nat,
                  latestType: Option<string>, latestReference: Option<Reference>, latestOpenedOn: Option<Date>,
                      outstanding: int,
                  releaseNow: int, releaseThisWeek: int, nextDueDate: Option<Date>, nextDueNumber: Option<string>,
                  mostUrgent: Option<DueStatus>)

  datatype BlockerReport =
    BlockerReport(supplierCount: nat, hardHolds: int, softHolds: int, blockedNow: int, blockedThisWeek: int,
                  blockedOutstanding: int, records: seq<BlockerRecord>)

  function ExceptionSupplier(): ExceptionRecord -> Id { (e: ExceptionRecord) => e.supplierId }
  function HasOpen(): ExceptionRecord -> bool { (e: ExceptionRecord) => e.openCount > 0 }

  /** `{record["supplier_id"]: record ...}` over the exception records with an open dispute. */
  function OpenExceptions(c: Cases): map<Id, ExceptionRecord>
  {
    Rebuild(FilterMap(Exceptions(c).records, HasOpen(), Whole()), ExceptionSupplier(), Whole())
  }

  function MakeBlocker(r: RunRecord, e: ExceptionRecord): BlockerRecord
  {
    BlockerRecord(r.supplierId, r.supplierName, if e.overdueOpenCount > 0 then HardHold else SoftHold, e.openCount,
                  e.overdueOpenCount, e.latestType, e.latestReference, e.latestOpenedOn, r.outstanding, r.releaseNow,
                  r.releaseThisWeek, r.nextDueDate, r.nextDueNumber, r.mostUrgent)
  }

  function Blocks(es: map<Id, ExceptionRecord>): RunRecord -> bool
  {
    (r: RunRecord) => r.outstanding > 0 && r.supplierId in es
  }

  function BlockerRow(es: map<Id, ExceptionRecord>): RunRecord -> BlockerRecord
  {
    (r: RunRecord) => if r.supplierId in es then MakeBlocker(r, es[r.supplierId]) else MakeBlocker(r, NO_EXCEPTION)
  }

  const NO_EXCEPTION := ExceptionRecord("", "", 0, 0, 0, 0, None, None, None, ResolvedCases)

  function BlockerKey(): BlockerRecord -> Key
  {
    (r: BlockerRecord) =>
      By(if r.hold == HardHold then 0 else 1, By(-r.releaseNow, By(-r.releaseThisWeek, By(DateOr(r.nextDueDate),
        ByText(r.supplierName, ByText(r.supplierId, End))))))
  }

  function Holding(h: Hold): BlockerRecord -> int { (r: BlockerRecord) => if r.hold == h then 1 else 0 }
  function BlockedNow(): BlockerRecord -> int { (r: BlockerRecord) => r.releaseNow }
  function BlockedWeek(): BlockerRecord -> int { (r: BlockerRecord) => r.releaseThisWeek }
  function BlockedOpen(): BlockerRecord -> int { (r: BlockerRecord) => r.outstanding }

  function BlockerRows(c: Cases): seq<BlockerRecord>
  {
    FilterMap(PaymentRun(c.books).records, Blocks(OpenExceptions(c)), BlockerRow(OpenExceptions(c)))
  }

  function Blockers(c: Cases): BlockerReport
  {
    var rs := SortBy(BlockerRows(c), BlockerKey());
    BlockerReport(|rs|, Sum(rs, Holding(HardHold)), Sum(rs, Holding(SoftHold)), Sum(rs, BlockedNow()),
        Sum(rs, BlockedWeek()), Sum(rs, BlockedOpen()), rs)
  }

  method JoinRun(c: Cases, run: seq<RunRecord>, es: map<Id, ExceptionRecord>) returns (records: seq<BlockerRecord>)
    ensures records == FilterMap(run, Blocks(es), BlockerRow(es))
  {
    hide FilterMap;
    records := [];
    FilterMapEmpty(run[..0], Blocks(es), BlockerRow(es));
    for i := 0 to |run|
      invariant records == FilterMap(run[..i], Blocks(es), BlockerRow(es))
    {
      var r := run[i];
      FilterMapPrefix(run, i, Blocks(es), BlockerRow(es));
      if r.outstanding > 0 && r.supplierId in es { records := records + [MakeBlocker(r, es[r.supplierId])]; }
    }
    assert run[..|run|] == run;
  }

  method BuildSupplierSettlementBlockerReport(c: Cases) returns (report: BlockerReport)
    ensures report == Blockers(c)
  {
    hide Sum, SortBy, FilterMap, PaymentRun, Exceptions, Rebuild;
    var run := BuildSupplierPaymentRun(c.books);
    var exceptions := BuildSupplierExceptionReport(c);
    var open := Select(exceptions.records, HasOpen());
    var es := Index(open, ExceptionSupplier());
    var records := JoinRun(c, run.records, es);
    records := SortBy(records, BlockerKey());
    var hard := Total(records, Holding(HardHold));
    var soft := Total(records, Holding(SoftHold));
    var now := Total(records, BlockedNow());
    var week := Total(records, BlockedWeek());
    var outstanding := Total(records, BlockedOpen());
    report := BlockerReport(|records|, hard, soft, now, week, outstanding, records);
  }

  // ---- who is blocked ----

  lemma {:induction false} GroupNamesSupplier(c: Cases, ds: seq<VendorDispute>, k: Id)
    ensures GroupFold(ds, DisputeSupplier(), StartException(c), AddDispute(c, AllBills(c)), k).supplierId == k
  {
    hide AllBills;
    if |ds| > 0 { GroupNamesSupplier(c, ds[..|ds| - 1], k); }
  }

  /** The dictionary of open exceptions holds every supplier with an open dispute, under that supplier's own record. */
  lemma OpenExceptionsHold(c: Cases, k: Id)
    ensures k in OpenExceptions(c) <==> OpenAgainst(c)(k) > 0
    ensures k in OpenExceptions(c) ==> OpenExceptions(c)[k] == ExceptionFor(c)(k)
  {
    hide Exceptions, FilterMap, Rebuild, ExceptionFor, OpenAgainst, LongAgainst;
    var rows := FilterMap(Exceptions(c).records, HasOpen(), Whole());
    RebuildMember(rows, ExceptionSupplier(), k);
    forall e ensures e in rows <==> OpenAgainst(c)(e.supplierId) > 0 && e == ExceptionFor(c)(e.supplierId) {
      FilterMapMember(Exceptions(c).records, HasOpen(), Whole(), e);
      if OpenAgainst(c)(e.supplierId) > 0 || e in Exceptions(c).records { ExceptionRecords(c, e); }
      ExceptionCounts(c, e.supplierId);
    }
    ExceptionNames(c, k);
    if OpenAgainst(c)(k) > 0 {
      assert ExceptionFor(c)(k) in rows;
      var i :| 0 <= i < |rows| && rows[i] == ExceptionFor(c)(k);
      assert ExceptionSupplier()(rows[i]) == k;
    }
    if i :| 0 <= i < |rows| && ExceptionSupplier()(rows[i]) == k { assert rows[i] in rows; }
  }

  lemma ExceptionNames(c: Cases, k: Id)
    ensures ExceptionFor(c)(k).supplierId == k
  {
    hide GroupFold, Mine, StatusOf;
    GroupNamesSupplier(c, Mine(c), k);
    assert ExceptionFor(c)(k) == Judge()(GroupFor(c)(k));
  }

  /** A record with an open dispute is in the report exactly when it is its supplier's own. */
  lemma ExceptionRecords(c: Cases, e: ExceptionRecord)
    requires OpenAgainst(c)(e.supplierId) > 0 || e in Exceptions(c).records
    ensures e in Exceptions(c).records <==> e == ExceptionFor(c)(e.supplierId)
  {
    hide SortBy, GroupFold, GroupKeys, Mine, StatusOf, OpenAgainst, Map, AddDispute, StartException;
    var groups := ExceptionGroups(c);
    var rows := Map(groups, Judge());
    SortByMembers(rows, ExceptionKey(), e);
    MapMember(groups, Judge(), e);
    forall k ensures ExceptionFor(c)(k).supplierId == k { ExceptionNames(c, k); }
    if e in rows {
      var g :| g in groups && Judge()(g) == e;
      GroupMember(Mine(c), DisputeSupplier(), StartException(c), AddDispute(c, AllBills(c)), g);
      var k :| k in GroupKeys(Mine(c), DisputeSupplier()) && GroupFor(c)(k) == g;
      assert e == ExceptionFor(c)(k);
    } else if e == ExceptionFor(c)(e.supplierId) {
      HasOpenGroup(c, e.supplierId);
      var g := GroupFor(c)(e.supplierId);
      GroupMember(Mine(c), DisputeSupplier(), StartException(c), AddDispute(c, AllBills(c)), g);
      assert Judge()(g) == e;
    }
  }

  lemma HasOpenGroup(c: Cases, k: Id)
    requires OpenAgainst(c)(k) > 0
    ensures k in GroupKeys(Mine(c), DisputeSupplier())
  {
    hide Sum, FilterMap, GroupKeys;
    var f := Restrict(BranchCase(c), DisputeSupplier(), k);
    assert OpenAgainst(c)(k) == Sum(c.disputes, f);
    if i :| 0 <= i < |c.disputes| && f(c.disputes[i]) != 0 {
      FilterMapMember(c.disputes, OfBranch(c), Whole(), c.disputes[i]);
      var j :| 0 <= j < |Mine(c)| && Mine(c)[j] == c.disputes[i];
      assert DisputeSupplier()(Mine(c)[j]) in GroupKeys(Mine(c), DisputeSupplier());
    } else {
      SumZero(c.disputes, f);
      assert false;
    }
  }

  /** A supplier is blocked when it is owed money and has an open dispute at the branch. */
  ghost predicate IsBlocked(c: Cases, k: Id) { SupplierOpen(c.books)(k) > 0 && OpenAgainst(c)(k) > 0 }

  /** The blocker report lists exactly the blocked suppliers, each with its payment-run and exception figures. */
  lemma BlockerRecords(c: Cases, r: BlockerRecord)
    ensures r in Blockers(c).records
       <==> IsBlocked(c, r.supplierId) && r == MakeBlocker(RunFor(c.books)(r.supplierId), ExceptionFor(c)(r.supplierId))
  {
    hide PaymentRun, SortBy, FilterMap, OpenExceptions, RunFor, ExceptionFor, SupplierOpen, OpenAgainst;
    var run, es := PaymentRun(c.books).records, OpenExceptions(c);
    SortByMembers(BlockerRows(c), BlockerKey(), r);
    FilterMapMember(run, Blocks(es), BlockerRow(es), r);
    var k := r.supplierId;
    OpenExceptionsHold(c, k);
    RunOwes(c.books, k);
    RunNames(c.books, k);
    if i :| 0 <= i < |run| && Blocks(es)(run[i]) && BlockerRow(es)(run[i]) == r {
      assert run[i] in run && run[i].supplierId == k;
      RunRecords(c.books, run[i]);
    }
    if IsBlocked(c, k) && r == MakeBlocker(RunFor(c.books)(k), ExceptionFor(c)(k)) {
      RunRecords(c.books, RunFor(c.books)(k));
      var i :| 0 <= i < |run| && run[i] == RunFor(c.books)(k);
      assert Blocks(es)(run[i]) && BlockerRow(es)(run[i]) == r;
    }
  }

  lemma RunNames(b: Books, k: Id)
    ensures RunFor(b)(k).supplierId == k
  {
    hide DueSchedule, GroupFold;
    RunNamesSupplier(b, DueSchedule(b).records, k);
  }
}
