/** One statement per supplier (supplier_statements.py). */
module SupplierStatements {
  import opened Folds
  import opened Inventory
  import opened Entities
  import opened Ordering
  import opened Handlers
  import opened SupplierPayables
  import opened SupplierAging

  /** The figures the loop derives for one invoice before it touches the supplier's record. */
  datatype StatementLine =
    StatementLine(supplierId: Id, number: string, invoiceDate: Date, ageDays: int, grandTotal: int, credited: int,
        paid: int, outstanding: int)

  datatype StatementRecord =
    StatementRecord(supplierId: Id, supplierName: string, invoiceCount: nat, openCount: nat, invoiced: int, credited: int,
                    paid: int, outstanding: int, current: int, days1To30: int, days31To60: int, days61Plus: int,
                    oldestDate: Option<Date>, oldestNumber: Option<string>)

  datatype StatementReport =
    StatementReport(supplierCount: nat, openSupplierCount: int, outstanding: int, records: seq<StatementRecord>)

  /** The day number of 9999-12-31, where suppliers without an open invoice sort. */
  const FAR_DATE: Date := 3652059

  function MakeLine(b: Books, v: PurchaseInvoice, credited: int, paid: int): StatementLine
  {
    StatementLine(v.supplierId, v.number, v.invoiceDate, AgeOf(b)(v), v.totals.grandTotal, credited, paid,
                  OpenAmount(v.totals.grandTotal, credited, paid))
  }

  function LineRow(b: Books): PurchaseInvoice -> StatementLine
  {
    (v: PurchaseInvoice) => MakeLine(b, v, CreditedOn(b)(v.id), PaidOn(b)(v.id))
  }

  function LineSupplier(): StatementLine -> Id { (l: StatementLine) => l.supplierId }

  function StartStatement(b: Books): Id -> StatementRecord
  {
    (k: Id) => StatementRecord(k, NameOf(b.suppliers)(k), 0, 0, 0, 0, 0, 0, 0, 0, 0, 0, None, None)
  }

  function ApplyBucketTotals(r: StatementRecord, outstanding: int, ageDays: int): StatementRecord
  {
    if ageDays <= 0 then r.(current := r.current + outstanding)
    else if ageDays <= 30 then r.(days1To30 := r.days1To30 + outstanding)
    else if ageDays <= 60 then r.(days31To60 := r.days31To60 + outstanding)
    else r.(days61Plus := r.days61Plus + outstanding)
  }

  function NoteOldest(r: StatementRecord, l: StatementLine): StatementRecord
  {
    if r.oldestDate.None? || l.invoiceDate < r.oldestDate.value
    then r.(oldestDate := Some(l.invoiceDate), oldestNumber := Some(l.number)) else r
  }

  function AddTotals(r: StatementRecord, l: StatementLine): StatementRecord
  {
    r.(invoiceCount := r.invoiceCount + 1, invoiced := r.invoiced + l.grandTotal, credited := r.credited + l.credited,
       paid := r.paid + l.paid, outstanding := r.outstanding + l.outstanding)
  }

  function AddOpen(r: StatementRecord, l: StatementLine): StatementRecord
  {
    NoteOldest(ApplyBucketTotals(r.(openCount := r.openCount + 1), l.outstanding, l.ageDays), l)
  }

  function Extend(r: StatementRecord, l: StatementLine): StatementRecord
  {
    if l.outstanding > 0 then AddOpen(AddTotals(r, l), l) else AddTotals(r, l)
  }

  function AddLine(): (StatementRecord, StatementLine) -> StatementRecord
  {
    (r: StatementRecord, l: StatementLine) => Extend(r, l)
  }

  function HasOpenAmount(): StatementRecord -> int { (r: StatementRecord) => if r.outstanding > 0 then 1 else 0 }

  function StatementOpen(): StatementRecord -> int { (r: StatementRecord) => r.outstanding }

  function StatementKey(): StatementRecord -> Key
  {
    (r: StatementRecord) =>
      By(-r.outstanding, By(if r.oldestDate.Some? then r.oldestDate.value else FAR_DATE, ByText(r.supplierName, End)))
  }

  function Lines(b: Books): seq<StatementLine> { FilterMap(b.invoices, AtBranch(b), LineRow(b)) }

  function StatementRows(b: Books): seq<StatementRecord> { Groups(Lines(b), LineSupplier(), StartStatement(b), AddLine()) }

  function Statements(b: Books): StatementReport
  {
    var records := SortBy(StatementRows(b), StatementKey());
    StatementReport(|records|, Sum(records, HasOpenAmount()), Sum(records, StatementOpen()), records)
  }

  method StatementLines(b: Books) returns (lines: seq<StatementLine>)
    ensures lines == Lines(b)
  {
    hide FilterMap, CreditedOn, PaidOn, OpenAmount;
    var credited, paid := InvoiceTotals(b);
    lines := [];
    FilterMapEmpty(b.invoices[..0], AtBranch(b), LineRow(b));
    for i := 0 to |b.invoices|
      invariant lines == FilterMap(b.invoices[..i], AtBranch(b), LineRow(b))
    {
      var v := b.invoices[i];
      LineRowIs(b, v);
      FilterMapPrefix(b.invoices, i, AtBranch(b), LineRow(b));
      if v.branchId == b.branchId {
        lines := lines + [MakeLine(b, v, Lookup(credited, v.id), Lookup(paid, v.id))];
      }
    }
    assert b.invoices[..|b.invoices|] == b.invoices;
  }

  method BuildSupplierStatementReport(b: Books) returns (report: StatementReport)
    ensures report == Statements(b)
  {
    hide Sum, SortBy, Groups;
    var lines := StatementLines(b);
    var records := GroupRecords(lines, LineSupplier(), StartStatement(b), AddLine());
    records := SortBy(records, StatementKey());
    var openCount := Total(records, HasOpenAmount());
    var outstanding := Total(records, StatementOpen());
    report := StatementReport(|records|, openCount, outstanding, records);
  }

  lemma LineRowIs(b: Books, v: PurchaseInvoice)
    ensures LineRow(b)(v) == MakeLine(b, v, CreditedOn(b)(v.id), PaidOn(b)(v.id))
    ensures LineRow(b)(v).outstanding == OpenOf(b)(v) >= 0
  {
    OpenIs(b, v);
  }

  function LineOpen(): StatementLine -> int { (l: StatementLine) => l.outstanding }

  lemma ExtendAdds(r: StatementRecord, l: StatementLine, k: Bucket)
    ensures Extend(r, l).outstanding == r.outstanding + l.outstanding
    ensures StatementBucket(k)(Extend(r, l)) == StatementBucket(k)(r) + LineBucket(k)(l)
    ensures Extend(r, l).oldestDate == if l.outstanding > 0 then NoteOldest(r, l).oldestDate else r.oldestDate
    ensures Extend(r, l).oldestNumber == if l.outstanding > 0 then NoteOldest(r, l).oldestNumber else r.oldestNumber
  {
  }

  lemma ExtendsLinearly(k: Bucket)
    ensures forall r, l :: StatementOpen()(AddLine()(r, l)) == StatementOpen()(r) + LineOpen()(l)
    ensures forall r, l :: StatementBucket(k)(AddLine()(r, l)) == StatementBucket(k)(r) + LineBucket(k)(l)
  {
    hide Extend, StatementBucket, LineBucket;
    forall r, l ensures AddLine()(r, l) == Extend(r, l)
        && StatementOpen()(AddLine()(r, l)) == StatementOpen()(r) + LineOpen()(l)
      ensures StatementBucket(k)(AddLine()(r, l)) == StatementBucket(k)(r) + LineBucket(k)(l)
    {
      ExtendAdds(r, l, k);
    }
  }

  /** The statements add up to the branch's outstanding total. */
  lemma StatementOutstanding(b: Books)
    ensures Statements(b).outstanding == Sum(b.invoices, BranchOpen(b))
  {
    hide Sum, SortBy, FilterMap, CreditedOn, PaidOn, Groups, AddLine;
    SumPermuted(StatementRows(b), SortBy(StatementRows(b), StatementKey()), StatementOpen());
    ExtendsLinearly(Current);
    GroupsTotal(Lines(b), LineSupplier(), StartStatement(b), AddLine(), StatementOpen(), LineOpen());
    forall v { LineRowIs(b, v); }
    FilterMapSum(b.invoices, AtBranch(b), LineRow(b), LineOpen(), BranchOpen(b));
  }

  function StatementBucket(k: Bucket): StatementRecord -> int
  {
    (r: StatementRecord) =>
      match k case Current => r.current case Days1To30 => r.days1To30 case Days31To60 => r.days31To60 case Days61Plus =>
          r.days61Plus
  }

  function LineBucket(k: Bucket): StatementLine -> int
  {
    (l: StatementLine) => if l.outstanding > 0 && BucketOf(l.ageDays) == k then l.outstanding else 0
  }

  /** Each age bucket, summed over the statements, is the aging report's bucket. */
  lemma StatementBuckets(b: Books, k: Bucket)
    ensures Sum(Statements(b).records, StatementBucket(k)) == BucketTotal(Aging(b), k)
  {
    hide Sum, SortBy, FilterMap, CreditedOn, PaidOn, Groups, Aging, AddLine;
    SumPermuted(StatementRows(b), SortBy(StatementRows(b), StatementKey()), StatementBucket(k));
    ExtendsLinearly(k);
    GroupsTotal(Lines(b), LineSupplier(), StartStatement(b), AddLine(), StatementBucket(k), LineBucket(k));
    forall v { LineRowIs(b, v); }
    FilterMapSum(b.invoices, AtBranch(b), LineRow(b), LineBucket(k), BranchBucket(b, k));
    AgingBuckets(b, k);
  }

  /** What a supplier is owed at the branch, straight from the invoices. */
  function SupplierOpen(b: Books): Id -> int { GroupTotal(b.invoices, SupplierOf(), BranchOpen(b)) }

  function StatementFor(b: Books): Id -> StatementRecord { Grouped(Lines(b), LineSupplier(), StartStatement(b), AddLine()) }

  lemma StatementOwes(b: Books, k: Id)
    ensures StatementFor(b)(k).outstanding == SupplierOpen(b)(k)
  {
    hide Sum, FilterMap, CreditedOn, PaidOn, AddLine;
    ExtendsLinearly(Current);
    GroupedField(Lines(b), LineSupplier(), StartStatement(b), AddLine(), StatementOpen(), LineOpen(), k);
    forall v { LineRowIs(b, v); }
    FilterMapSum(b.invoices, AtBranch(b), LineRow(b), Restrict(LineOpen(), LineSupplier(), k),
                 Restrict(BranchOpen(b), SupplierOf(), k));
  }

  ghost predicate OpenLineOf(lines: seq<StatementLine>, k: Id, i: int)
  {
    0 <= i < |lines| && lines[i].supplierId == k && lines[i].outstanding > 0
  }

  /** Line `i` is the earliest-dated open line of `k`, the first of them on a tie. */
  ghost predicate Earliest(lines: seq<StatementLine>, k: Id, i: int)
  {
    && OpenLineOf(lines, k, i)
    && (forall j :: OpenLineOf(lines, k, j) ==> lines[i].invoiceDate <= lines[j].invoiceDate)
    && (forall j :: OpenLineOf(lines, k, j) && j < i ==> lines[i].invoiceDate < lines[j].invoiceDate)
  }

  ghost predicate OldestIs(lines: seq<StatementLine>, k: Id, r: StatementRecord)
  {
    && (r.oldestDate.None? ==> forall i :: !OpenLineOf(lines, k, i))
    && (r.oldestDate.Some? ==> exists i ::
          Earliest(lines, k, i) && r.oldestDate == Some(lines[i].invoiceDate) && r.oldestNumber == Some(lines[i].number))
  }

  lemma OldestStep(lines: seq<StatementLine>, k: Id, r: StatementRecord)
    requires |lines| > 0 && OldestIs(lines[..|lines| - 1], k, r)
    ensures OldestIs(lines, k, if lines[|lines| - 1].supplierId == k then Extend(r, lines[|lines| - 1]) else r)
  {
    hide Extend;
    var n := |lines| - 1;
    var front, l := lines[..n], lines[n];
    ExtendAdds(r, l, Current);
    assert forall i :: OpenLineOf(lines, k, i) <==>
        OpenLineOf(front, k, i) || (i == n && l.supplierId == k && l.outstanding > 0);
    if r.oldestDate.Some? {
      var i :| Earliest(front, k, i) && r.oldestDate == Some(front[i].invoiceDate)
          && r.oldestNumber == Some(front[i].number);
      if OpenLineOf(lines, k, n) && l.invoiceDate < front[i].invoiceDate {
        assert Earliest(lines, k, n);
      } else {
        assert Earliest(lines, k, i);
      }
    } else if OpenLineOf(lines, k, n) {
      assert Earliest(lines, k, n);
    }
  }

  /** The oldest open invoice on a statement is the supplier's earliest-dated open one. */
  lemma {:induction false} OldestOpenInvoice(b: Books, lines: seq<StatementLine>, k: Id)
    ensures OldestIs(lines, k, GroupFold(lines, LineSupplier(), StartStatement(b), AddLine(), k))
  {
    hide Extend, OldestIs;
    if |lines| == 0 {
      NoOpenLines(b, lines, k);
    } else {
      var n := |lines| - 1;
      OldestOpenInvoice(b, lines[..n], k);
      OldestStep(lines, k, GroupFold(lines[..n], LineSupplier(), StartStatement(b), AddLine(), k));
    }
  }

  lemma NoOpenLines(b: Books, lines: seq<StatementLine>, k: Id)
    requires |lines| == 0
    ensures OldestIs(lines, k, StartStatement(b)(k))
  {
  }

  // ---- one record per supplier ----

  lemma {:induction false} StatementNames(b: Books, ls: seq<StatementLine>, k: Id)
    ensures GroupFold(ls, LineSupplier(), StartStatement(b), AddLine(), k).supplierId == k
  {
    if |ls| > 0 { StatementNames(b, ls[..|ls| - 1], k); }
  }

  predicate Bills(b: Books, k: Id) { exists v :: v in b.invoices && v.branchId == b.branchId && v.supplierId == k }

  lemma StatementKeys(b: Books, k: Id)
    ensures k in GroupKeys(Lines(b), LineSupplier()) <==> Bills(b, k)
  {
    hide FilterMap, GroupKeys, CreditedOn, PaidOn, OpenAmount;
    var ls := Lines(b);
    if k in GroupKeys(ls, LineSupplier()) {
      var i :| 0 <= i < |ls| && LineSupplier()(ls[i]) == k;
      FilterMapMember(b.invoices, AtBranch(b), LineRow(b), ls[i]);
      var j :| 0 <= j < |b.invoices| && AtBranch(b)(b.invoices[j]) && LineRow(b)(b.invoices[j]) == ls[i];
      LineRowIs(b, b.invoices[j]);
      assert b.invoices[j] in b.invoices;
    }
    if v :| v in b.invoices && v.branchId == b.branchId && v.supplierId == k {
      var j :| 0 <= j < |b.invoices| && b.invoices[j] == v;
      FilterMapMember(b.invoices, AtBranch(b), LineRow(b), LineRow(b)(v));
      LineRowIs(b, v);
      var i :| 0 <= i < |ls| && ls[i] == LineRow(b)(v);
      assert LineSupplier()(ls[i]) == k;
    }
  }

  function StatementSupplier(): StatementRecord -> Id { (r: StatementRecord) => r.supplierId }

  lemma StatementsListOnce(b: Books)
    ensures DistinctBy(Statements(b).records, StatementSupplier())
  {
    hide Lines, SortBy, GroupFold, GroupKeys, Map, AddLine, StartStatement, LineSupplier, Sum;
    forall k ensures StatementSupplier()(GroupFold(Lines(b), LineSupplier(), StartStatement(b), AddLine(), k)) == k {
      StatementNames(b, Lines(b), k);
    }
    DistinctGroups(Lines(b), LineSupplier(), StartStatement(b), AddLine(), StatementSupplier());
    DistinctPermuted(StatementRows(b), SortBy(StatementRows(b), StatementKey()), StatementSupplier());
  }

  /** There is one statement for every supplier with an invoice at the branch, and no other. */
  lemma StatementRecords(b: Books, r: StatementRecord)
    ensures r in Statements(b).records <==> Bills(b, r.supplierId) && r == StatementFor(b)(r.supplierId)
    ensures DistinctBy(Statements(b).records, StatementSupplier())
  {
    hide Lines, SortBy, GroupFold, GroupKeys, AddLine, StartStatement, LineSupplier, Bills, Sum;
    StatementsListOnce(b);
    SortByMembers(StatementRows(b), StatementKey(), r);
    GroupMember(Lines(b), LineSupplier(), StartStatement(b), AddLine(), r);
    forall k ensures StatementFor(b)(k).supplierId == k
        && (k in GroupKeys(Lines(b), LineSupplier()) <==> Bills(b, k)) {
      StatementNames(b, Lines(b), k);
      StatementKeys(b, k);
    }
  }
}
