/** Who must act on each open dispute (supplier_escalations.py). */
module SupplierEscalations {
  import opened Folds
  import opened Inventory
  import opened Entities
  import opened Ordering
  import opened StateModel
  import opened SupplierPayables
  import opened SupplierDueSchedule
  import opened SupplierStatements
  import opened SupplierPaymentRun
  import opened VendorDisputes
  import opened SupplierExceptions
  import opened SupplierSettlementBlockers

  datatype Escalation = FinanceEscalation | OwnerEscalation | StaleCase | BranchFollowUp

  datatype EscalationRecord =
    EscalationRecord(disputeId: Id, supplierId: Id, supplierName: string, reference: Reference, disputeType: string,
                     openedOn: Date, ageDays: int, overdue: bool, hold: Option<Hold>, blockedNow: int, blockedThisWeek: int,
                     blockedOutstanding: int, nextDueNumber: Option<string>, mostUrgent: Option<DueStatus>,
                         status: Escalation, target: string)

  datatype EscalationReport =
    EscalationReport(openCases: nat, finance: int, owner: int, stale: int, followUp: int, blockedNow: int,
        blockedThisWeek: int, blockedOutstanding: int, records: seq<EscalationRecord>)

  function DeriveEscalation(ageDays: int, overdue: bool, hold: Option<Hold>, now: int, week: int,
      outstanding: int): Escalation
  {
    if hold == Some(HardHold) || now > 0 then FinanceEscalation
    else if ageDays > 14 && hold.None? && outstanding == 0 then StaleCase
    else if hold == Some(SoftHold) || week > 0 || overdue then OwnerEscalation
    else BranchFollowUp
  }

  function TargetOf(e: Escalation): string
  {
    match e
    case FinanceEscalation => "finance_admin"
    case OwnerEscalation => "tenant_owner"
    case StaleCase => "tenant_owner"
    case BranchFollowUp => "store_manager"
  }

  function BlockerSupplier(): BlockerRecord -> Id { (r: BlockerRecord) => r.supplierId }

  function BlockersById(c: Cases): map<Id, BlockerRecord> { Rebuild(Blockers(c).records, BlockerSupplier(), Whole()) }

  function Escalate(x: DisputeRecord, blocker: Option<BlockerRecord>): EscalationRecord
  {
    var (hold, now, week, outstanding, next, urgent) :=
      if blocker.Some? then
        (Some(blocker.value.hold), blocker.value.releaseNow, blocker.value.releaseThisWeek, blocker.value.outstanding,
         blocker.value.nextDueNumber, blocker.value.mostUrgent)
      else (None, 0, 0, 0, None, None);
    var status := DeriveEscalation(x.ageDays, x.overdue, hold, now, week, outstanding);
    EscalationRecord(x.disputeId, x.supplierId, x.supplierName, x.reference, x.disputeType, x.openedOn, x.ageDays,
                     x.overdue, hold, now, week, outstanding, next, urgent, status, TargetOf(status))
  }

  function Find(bs: map<Id, BlockerRecord>, k: Id): Option<BlockerRecord> { if k in bs then Some(bs[k]) else None }

  function EscalationRow(bs: map<Id, BlockerRecord>): DisputeRecord -> EscalationRecord
  {
    (x: DisputeRecord) => Escalate(x, Find(bs, x.supplierId))
  }

  function IsOpenRow(): DisputeRecord -> bool { (x: DisputeRecord) => x.open }

  function Rank(e: Escalation): int
  {
    match e case FinanceEscalation => 0 case OwnerEscalation => 1 case StaleCase => 2 case BranchFollowUp => 3
  }

  function EscalationKey(): EscalationRecord -> Key
  {
    (r: EscalationRecord) =>
      By(Rank(r.status), By(-r.blockedNow, By(-r.blockedThisWeek,
          By(-r.ageDays, ByText(r.supplierName, ByText(r.disputeId, End))))))
  }

  function WithStatus(e: Escalation): EscalationRecord -> int { (r: EscalationRecord) => if r.status == e then 1 else 0 }
  function NowBlocked(): EscalationRecord -> int { (r: EscalationRecord) => r.blockedNow }
  function WeekBlocked(): EscalationRecord -> int { (r: EscalationRecord) => r.blockedThisWeek }
  function OpenBlocked(): EscalationRecord -> int { (r: EscalationRecord) => r.blockedOutstanding }

  function EscalationRows(c: Cases): seq<EscalationRecord>
  {
    FilterMap(Board(c).records, IsOpenRow(), EscalationRow(BlockersById(c)))
  }

  function Escalations(c: Cases): EscalationReport
  {
    var rs := SortBy(EscalationRows(c), EscalationKey());
    EscalationReport(|rs|, Sum(rs, WithStatus(FinanceEscalation)), Sum(rs, WithStatus(OwnerEscalation)),
                     Sum(rs, WithStatus(StaleCase)), Sum(rs, WithStatus(BranchFollowUp)), Sum(rs, NowBlocked()),
                     Sum(rs, WeekBlocked()), Sum(rs, OpenBlocked()), rs)
  }

  method BuildSupplierEscalationReport(c: Cases) returns (report: EscalationReport)
    ensures report == Escalations(c)
  {
    hide Sum, SortBy, FilterMap, Board, Blockers, Escalate, Rebuild;
    var board := BuildVendorDisputeBoard(c);
    var blockers := BuildSupplierSettlementBlockerReport(c);
    var bs := Index(blockers.records, BlockerSupplier());
    var records: seq<EscalationRecord> := [];
    FilterMapEmpty(board.records[..0], IsOpenRow(), EscalationRow(bs));
    for i := 0 to |board.records|
      invariant records == FilterMap(board.records[..i], IsOpenRow(), EscalationRow(bs))
    {
      var x := board.records[i];
      FilterMapPrefix(board.records, i, IsOpenRow(), EscalationRow(bs));
      if x.open { records := records + [Escalate(x, Find(bs, x.supplierId))]; }
    }
    assert board.records[..|board.records|] == board.records;
    records := SortBy(records, EscalationKey());
    var finance := Total(records, WithStatus(FinanceEscalation));
    var owner := Total(records, WithStatus(OwnerEscalation));
    var stale := Total(records, WithStatus(StaleCase));
    var followUp := Total(records, WithStatus(BranchFollowUp));
    var now := Total(records, NowBlocked());
    var week := Total(records, WeekBlocked());
    var outstanding := Total(records, OpenBlocked());
    report := EscalationReport(|records|, finance, owner, stale, followUp, now, week, outstanding, records);
  }

  // ---- the exact meaning of an escalation ----

  /** The blocker of a supplier, straight from its payment-run and exception records. */
  ghost function BlockerFor(c: Cases, k: Id): Option<BlockerRecord>
  {
    if IsBlocked(c, k) then Some(MakeBlocker(RunFor(c.books)(k), ExceptionFor(c)(k))) else None
  }

  lemma BlockerFound(c: Cases, k: Id)
    ensures Find(BlockersById(c), k) == BlockerFor(c, k)
  {
    hide Blockers, Rebuild, RunFor, ExceptionFor, IsBlocked;
    var rs := Blockers(c).records;
    RebuildMember(rs, BlockerSupplier(), k);
    RunNames(c.books, k);
    if k in BlockersById(c) {
      BlockerRecords(c, BlockersById(c)[k]);
    }
    if IsBlocked(c, k) {
      var r := MakeBlocker(RunFor(c.books)(k), ExceptionFor(c)(k));
      BlockerRecords(c, r);
      var i :| 0 <= i < |rs| && rs[i] == r;
      assert BlockerSupplier()(rs[i]) == k;
    }
  }

  /** An open dispute of the branch has been open for more than seven days with this supplier. */
  ghost predicate SomeLongOpen(c: Cases, k: Id) { exists d :: d in c.disputes && d.supplierId == k && LongOpen(c, d) }

  predicate DueNow(b: Books, v: PurchaseInvoice) { IsOpen(b)(v) && v.dueDate <= b.asOf }

  /** An open invoice of the branch is due today or earlier with this supplier. */
  ghost predicate SomethingDue(b: Books, k: Id) { exists v :: v in b.invoices && v.supplierId == k && DueNow(b, v) }

  lemma LongCounted(c: Cases, k: Id)
    ensures LongAgainst(c)(k) > 0 <==> SomeLongOpen(c, k)
  {
    hide Sum;
    var f := Restrict(LongCase(c), DisputeSupplier(), k);
    SumNonNegative(c.disputes, f);
    if d :| d in c.disputes && d.supplierId == k && LongOpen(c, d) {
      var i :| 0 <= i < |c.disputes| && c.disputes[i] == d;
      assert f(c.disputes[i]) == 1;
    } else {
      SumZero(c.disputes, f);
    }
  }

  lemma OpenCounted(c: Cases, d: VendorDispute)
    requires d in c.disputes && d.branchId == c.books.branchId && d.open
    ensures OpenAgainst(c)(d.supplierId) > 0
  {
    hide Sum;
    var f := Restrict(BranchCase(c), DisputeSupplier(), d.supplierId);
    SumNonNegative(c.disputes, f);
    var i :| 0 <= i < |c.disputes| && c.disputes[i] == d;
    assert f(c.disputes[i]) == 1;
  }

  lemma ReleaseMeansDue(b: Books, k: Id)
    ensures RunFor(b)(k).releaseNow > 0 <==> SomethingDue(b, k)
  {
    hide Schedule, NextIs, Balanced, Sum, FilterMap, SortBy, CreditedOn, PaidOn;
    var xs := DueSchedule(b).records;
    ScheduleIsGenuine(b);
    RunShape(b, xs, k);
    if i :| DueOf(xs, k, i) && xs[i].dueDate <= b.asOf {
      SortByMembers(DueRows(b), DueKey(), xs[i]);
      FilterMapMember(b.invoices, IsOpen(b), DueRow(b), xs[i]);
      var j :| 0 <= j < |b.invoices| && IsOpen(b)(b.invoices[j]) && DueRow(b)(b.invoices[j]) == xs[i];
      DueRowIs(b, b.invoices[j]);
      assert b.invoices[j] in b.invoices && DueNow(b, b.invoices[j]);
    }
    if v :| v in b.invoices && v.supplierId == k && DueNow(b, v) {
      var j :| 0 <= j < |b.invoices| && b.invoices[j] == v;
      FilterMapMember(b.invoices, IsOpen(b), DueRow(b), DueRow(b)(v));
      SortByMembers(DueRows(b), DueKey(), DueRow(b)(v));
      DueRowIs(b, v);
      var i :| 0 <= i < |xs| && xs[i] == DueRow(b)(v);
      assert DueOf(xs, k, i);
    }
  }

  /** The supplier is owed money, and either a dispute has dragged on or something is due. */
  ghost predicate NeedsFinance(c: Cases, k: Id)
  {
    SupplierOpen(c.books)(k) > 0 && (SomeLongOpen(c, k) || SomethingDue(c.books, k))
  }

  ghost function MeaningOf(c: Cases, d: VendorDispute): Escalation
  {
    if NeedsFinance(c, d.supplierId) then FinanceEscalation
    else if SupplierOpen(c.books)(d.supplierId) > 0 then OwnerEscalation
    else if AgeDays(c, d) > 14 then StaleCase
    else if AgeDays(c, d) > 7 then OwnerEscalation
    else BranchFollowUp
  }

  ghost function EscalationFor(c: Cases, d: VendorDispute): EscalationRecord
  {
    Escalate(MakeDispute(c, AllBills(c), d), BlockerFor(c, d.supplierId))
  }

  lemma DerivedMeaning(c: Cases, d: VendorDispute)
    requires d in c.disputes && d.branchId == c.books.branchId && d.open
    ensures EscalationFor(c, d).status == MeaningOf(c, d)
  {
    hide RunFor, ExceptionFor, SupplierOpen, OpenAgainst, LongAgainst, SomeLongOpen, SomethingDue, AllBills, Resolve,
        NextIs;
    var k := d.supplierId;
    OpenCounted(c, d);
    LongCounted(c, k);
    ReleaseMeansDue(c.books, k);
    ExceptionCounts(c, k);
    RunOwes(c.books, k);
    PaymentRunStructure(c.books, k);
  }

  /**
   * Through the dispute board, the exception report, the payment run and the blocker report, every open dispute of the
   * branch gets one record, and its status says exactly this: finance must act if the supplier is owed money and a
   * dispute with it has been open for more than seven days or something is due; a case is stale if nothing is owed
   * and it is over fourteen days old; the branch follows up if nothing is owed and it is at most seven days old;
   * otherwise the owner must act.
   */
  lemma EscalationIsExact(c: Cases, d: VendorDispute)
    requires d in c.disputes && d.branchId == c.books.branchId && d.open
    ensures EscalationFor(c, d) in Escalations(c).records && EscalationFor(c, d).disputeId == d.id
    ensures EscalationFor(c, d).status == MeaningOf(c, d)
    ensures EscalationFor(c, d).target == "finance_admin" <==> MeaningOf(c, d) == FinanceEscalation
    ensures EscalationFor(c, d).target == "store_manager" <==> MeaningOf(c, d) == BranchFollowUp
  {
    hide Board, BlockersById, BlockerFor, SortBy, FilterMap, MeaningOf, AllBills, Resolve, DeriveEscalation;
    DerivedMeaning(c, d);
    OnBoard(c, d);
    var x := DisputeRow(c)(d);
    var i :| 0 <= i < |Board(c).records| && Board(c).records[i] == x;
    BlockerFound(c, d.supplierId);
    DisputeRowIs(c, d);
    assert EscalationRow(BlockersById(c))(x) == EscalationFor(c, d);
    FilterMapMember(Board(c).records, IsOpenRow(), EscalationRow(BlockersById(c)), EscalationFor(c, d));
    SortByMembers(EscalationRows(c), EscalationKey(), EscalationFor(c, d));
  }

  function EscalatedDispute(): EscalationRecord -> Id { (r: EscalationRecord) => r.disputeId }
  function BoardDispute(): DisputeRecord -> Id { (r: DisputeRecord) => r.disputeId }
  function DisputeId(): VendorDispute -> Id { (d: VendorDispute) => d.id }

  /** The report has one record for every open dispute of the branch, and no other. */
  lemma EscalationRecords(c: Cases, r: EscalationRecord)
    requires r in Escalations(c).records
    ensures exists d :: d in c.disputes && d.branchId == c.books.branchId && d.open && r == EscalationFor(c, d)
  {
    hide Board, BlockersById, BlockerFor, SortBy, FilterMap, AllBills, Resolve, DeriveEscalation, Sum;
    SortByMembers(EscalationRows(c), EscalationKey(), r);
    FilterMapMember(Board(c).records, IsOpenRow(), EscalationRow(BlockersById(c)), r);
    var i :| 0 <= i < |Board(c).records| && IsOpenRow()(Board(c).records[i])
        && EscalationRow(BlockersById(c))(Board(c).records[i]) == r;
    var x := Board(c).records[i];
    assert x in Board(c).records;
    OffBoard(c, x);
    var d :| d in c.disputes && d.branchId == c.books.branchId && DisputeRow(c)(d) == x;
    DisputeRowIs(c, d);
    BlockerFound(c, d.supplierId);
    assert r == EscalationFor(c, d);
  }

  lemma OffBoard(c: Cases, x: DisputeRecord)
    requires x in Board(c).records
    ensures exists d :: d in c.disputes && d.branchId == c.books.branchId && DisputeRow(c)(d) == x
  {
    hide SortBy, FilterMap, MakeDispute, Sum;
    SortByMembers(BoardRows(c), BoardKey(), x);
    FilterMapMember(c.disputes, OfBranch(c), DisputeRow(c), x);
    var j :| 0 <= j < |c.disputes| && OfBranch(c)(c.disputes[j]) && DisputeRow(c)(c.disputes[j]) == x;
    assert c.disputes[j] in c.disputes;
  }

  /** Over disputes with ids of their own, no dispute is escalated twice. */
  lemma EscalatedOnce(c: Cases)
    requires DistinctBy(c.disputes, DisputeId())
    ensures DistinctBy(Escalations(c).records, EscalatedDispute())
  {
    hide BlockersById, SortBy, FilterMap, AllBills, Resolve, DeriveEscalation, Sum;
    forall d ensures BoardDispute()(DisputeRow(c)(d)) == DisputeId()(d) { DisputeRowIs(c, d); }
    DistinctFiltered(c.disputes, OfBranch(c), DisputeRow(c), DisputeId(), BoardDispute());
    DistinctPermuted(BoardRows(c), Board(c).records, BoardDispute());
    DistinctFiltered(Board(c).records, IsOpenRow(), EscalationRow(BlockersById(c)), BoardDispute(), EscalatedDispute());
    DistinctPermuted(EscalationRows(c), SortBy(EscalationRows(c), EscalationKey()), EscalatedDispute());
  }

  lemma OnBoard(c: Cases, d: VendorDispute)
    requires d in c.disputes && d.branchId == c.books.branchId
    ensures DisputeRow(c)(d) in Board(c).records
  {
    hide SortBy, FilterMap, MakeDispute;
    var j :| 0 <= j < |c.disputes| && c.disputes[j] == d;
    FilterMapMember(c.disputes, OfBranch(c), DisputeRow(c), DisputeRow(c)(d));
    SortByMembers(BoardRows(c), BoardKey(), DisputeRow(c)(d));
  }

  // ---- aggregation ----

  function EarlyStatuses(): EscalationRecord -> int
  {
    (r: EscalationRecord) => WithStatus(FinanceEscalation)(r) + WithStatus(OwnerEscalation)(r)
  }

  function LateStatuses(): EscalationRecord -> int
  {
    (r: EscalationRecord) => WithStatus(StaleCase)(r) + WithStatus(BranchFollowUp)(r)
  }

  /** The four status counts add up to the open disputes of the board, and of all exception records. */
  lemma StatusesCoverOpenCases(c: Cases)
    ensures var e := Escalations(c);
            && e.finance + e.owner + e.stale + e.followUp == e.openCases == Board(c).openCount
            && e.openCases == Sum(Exceptions(c).records, OpenCount())
  {
    hide Sum, SortBy, FilterMap, BlockersById, Escalate, Exceptions;
    var rs := Escalations(c).records;
    SumAdd(rs, WithStatus(FinanceEscalation), WithStatus(OwnerEscalation), EarlyStatuses());
    SumAdd(rs, WithStatus(StaleCase), WithStatus(BranchFollowUp), LateStatuses());
    SumAdd(rs, EarlyStatuses(), LateStatuses(), One());
    CountIsLength(rs);
    SumPermuted(EscalationRows(c), rs, One());
    FilterMapSum(Board(c).records, IsOpenRow(), EscalationRow(BlockersById(c)), One(), OpenRow());
    SumPermuted(BoardRows(c), Board(c).records, OpenRow());
    ExceptionsCoverBoard(c);
  }

  /** The three amounts the report adds up. */
  datatype Figure = Now | Week | Open

  function Pick(f: Figure, r: RunRecord): int
  {
    match f case Now => r.releaseNow case Week => r.releaseThisWeek case Open => r.outstanding
  }

  function PickEscalated(f: Figure): EscalationRecord -> int
  {
    (r: EscalationRecord) => match f case Now => r.blockedNow case Week => r.blockedThisWeek case Open =>
        r.blockedOutstanding
  }

  function PickBlocker(f: Figure): BlockerRecord -> int
  {
    (r: BlockerRecord) => match f case Now => r.releaseNow case Week => r.releaseThisWeek case Open => r.outstanding
  }

  /** An amount of a blocked supplier, once per open dispute with it. */
  function Shares(f: Figure): BlockerRecord -> int { (r: BlockerRecord) => r.openCount * PickBlocker(f)(r) }

  function BlockedTotal(f: Figure, e: EscalationReport): int
  {
    match f case Now => e.blockedNow case Week => e.blockedThisWeek case Open => e.blockedOutstanding
  }

  /** The amount of a dispute's supplier, if the dispute is open at the branch. */
  ghost function CaseAmount(c: Cases, f: Figure): VendorDispute -> int
  {
    (d: VendorDispute) => BranchCase(c)(d) * Pick(f, RunFor(c.books)(d.supplierId))
  }

  ghost function ShareOf(c: Cases, f: Figure): Id -> int { (k: Id) => OpenAgainst(c)(k) * Pick(f, RunFor(c.books)(k)) }

  /** A supplier that is owed nothing has nothing to release. */
  lemma NothingOwed(b: Books, k: Id, f: Figure)
    ensures Pick(f, RunFor(b)(k)) >= 0 && (SupplierOpen(b)(k) <= 0 ==> Pick(f, RunFor(b)(k)) == 0)
  {
    hide RunFor, SupplierOpen, NextIs;
    PaymentRunStructure(b, k);
    RunOwes(b, k);
    RunIsBalanced(b, k);
  }

  function DisputeShare(f: Figure, bs: map<Id, BlockerRecord>): DisputeRecord -> int
  {
    (x: DisputeRecord) => if x.open then PickEscalated(f)(EscalationRow(bs)(x)) else 0
  }

  lemma EscalatedAmount(c: Cases, f: Figure, d: VendorDispute)
    requires d in c.disputes && d.branchId == c.books.branchId
    ensures DisputeShare(f, BlockersById(c))(DisputeRow(c)(d)) == CaseAmount(c, f)(d)
  {
    hide BlockersById, RunFor, ExceptionFor, SupplierOpen, OpenAgainst, AllBills, Resolve, DeriveEscalation;
    DisputeRowIs(c, d);
    BlockerFound(c, d.supplierId);
    NothingOwed(c.books, d.supplierId, f);
    var x := DisputeRow(c)(d);
    assert EscalationRow(BlockersById(c))(x) == Escalate(x, BlockerFor(c, d.supplierId));
    assert CaseAmount(c, f)(d) == BranchCase(c)(d) * Pick(f, RunFor(c.books)(d.supplierId));
    if d.open { OpenCounted(c, d); }
  }

  /** What the escalation report blocks is the amount of its supplier for every open dispute. */
  lemma EscalatedPerDispute(c: Cases, f: Figure)
    ensures BlockedTotal(f, Escalations(c)) == Sum(c.disputes, CaseAmount(c, f))
  {
    hide Sum, SortBy, FilterMap, BlockersById, Escalate, RunFor, MakeDispute, BranchCase;
    var bs := BlockersById(c);
    SumPermuted(EscalationRows(c), Escalations(c).records, PickEscalated(f));
    SumSame(Escalations(c).records, PickEscalated(f),
        match f case Now => NowBlocked() case Week => WeekBlocked() case Open => OpenBlocked());
    FilterMapSum(Board(c).records, IsOpenRow(), EscalationRow(bs), PickEscalated(f), DisputeShare(f, bs));
    SumPermuted(BoardRows(c), Board(c).records, DisputeShare(f, bs));
    forall i | 0 <= i < |c.disputes|
      ensures CaseAmount(c, f)(c.disputes[i])
           == if OfBranch(c)(c.disputes[i]) then DisputeShare(f, bs)(DisputeRow(c)(c.disputes[i])) else 0
    {
      var d := c.disputes[i];
      if d.branchId == c.books.branchId { EscalatedAmount(c, f, d); }
          else { assert BranchCase(c)(d) == 0 by { ElsewhereIsNoCase(c, d); } }
    }
    FilterMapSum(c.disputes, OfBranch(c), DisputeRow(c), DisputeShare(f, bs), CaseAmount(c, f));
  }

  lemma ElsewhereIsNoCase(c: Cases, d: VendorDispute)
    requires d.branchId != c.books.branchId
    ensures BranchCase(c)(d) == 0
  {
  }

  function BlockedShare(f: Figure, es: map<Id, ExceptionRecord>): RunRecord -> int
  {
    (r: RunRecord) => if Blocks(es)(r) then Shares(f)(BlockerRow(es)(r)) else 0
  }

  ghost function SupplierShare(c: Cases, f: Figure): RunRecord -> int { (r: RunRecord) => ShareOf(c, f)(r.supplierId) }

  lemma BlockedAmount(c: Cases, f: Figure, r: RunRecord)
    requires r in PaymentRun(c.books).records
    ensures BlockedShare(f, OpenExceptions(c))(r) == SupplierShare(c, f)(r)
  {
    hide PaymentRun, OpenExceptions, RunFor, ExceptionFor, SupplierOpen, OpenAgainst, LongAgainst;
    RunRecords(c.books, r);
    RunOwes(c.books, r.supplierId);
    OpenExceptionsHold(c, r.supplierId);
    ExceptionCounts(c, r.supplierId);
    var es, k := OpenExceptions(c), r.supplierId;
    assert ShareOf(c, f)(k) == OpenAgainst(c)(k) * Pick(f, RunFor(c.books)(k));
    if k in es {
      var blocker := MakeBlocker(r, es[k]);
      assert BlockerRow(es)(r) == blocker && Blocks(es)(r);
      assert Shares(f)(blocker) == blocker.openCount * PickBlocker(f)(blocker);
      assert PickBlocker(f)(blocker) == Pick(f, r);
    } else {
      assert OpenAgainst(c)(k) == 0 && !Blocks(es)(r);
      assert SupplierShare(c, f)(r) == ShareOf(c, f)(k) == 0 * Pick(f, RunFor(c.books)(k));
    }
  }

  lemma {:induction false} ShareIsGrouped(c: Cases, f: Figure, ds: seq<VendorDispute>, k: Id)
    ensures Sum(ds, Restrict(CaseAmount(c, f), DisputeSupplier(), k))
         == Sum(ds, Restrict(BranchCase(c), DisputeSupplier(), k)) * Pick(f, RunFor(c.books)(k))
  {
    hide RunFor, Pick;
    if |ds| > 0 { ShareIsGrouped(c, f, ds[..|ds| - 1], k); }
  }

  /** The shares of the blocked suppliers, dispute by dispute. */
  lemma SharesPerDispute(c: Cases, f: Figure)
    ensures Sum(Blockers(c).records, Shares(f)) == Sum(c.disputes, CaseAmount(c, f))
  {
    hide Sum, SortBy, FilterMap, OpenExceptions, RunFor, MakeBlocker, BranchCase, DueSchedule, GroupKeys, CaseAmount,
        ShareOf, SupplierOpen;
    var b, es := c.books, OpenExceptions(c);
    var ks := GroupKeys(DueSchedule(b).records, DueSupplier());
    SumPermuted(BlockerRows(c), Blockers(c).records, Shares(f));
    FilterMapSum(PaymentRun(b).records, Blocks(es), BlockerRow(es), Shares(f), BlockedShare(f, es));
    forall i | 0 <= i < |PaymentRun(b).records|
      ensures BlockedShare(f, es)(PaymentRun(b).records[i]) == SupplierShare(c, f)(PaymentRun(b).records[i])
    {
      BlockedAmount(c, f, PaymentRun(b).records[i]);
    }
    SumSame(PaymentRun(b).records, BlockedShare(f, es), SupplierShare(c, f));
    SumPermuted(RunRows(b), PaymentRun(b).records, SupplierShare(c, f));
    SharesOverSuppliers(c, f);
    forall i | 0 <= i < |c.disputes|
      ensures CaseAmount(c, f)(c.disputes[i]) == Within(CaseAmount(c, f), DisputeSupplier(), ks)(c.disputes[i])
    {
      UnscheduledIsNothing(c, f, c.disputes[i]);
    }
    SumSame(c.disputes, CaseAmount(c, f), Within(CaseAmount(c, f), DisputeSupplier(), ks));
    KeyedSum(ks, c.disputes, DisputeSupplier(), CaseAmount(c, f));
  }

  lemma UnscheduledIsNothing(c: Cases, f: Figure, d: VendorDispute)
    ensures DisputeSupplier()(d) !in GroupKeys(DueSchedule(c.books).records, DueSupplier()) ==> CaseAmount(c, f)(d) == 0
  {
    hide RunFor, SupplierOpen, GroupKeys, DueSchedule;
    RunKeys(c.books, d.supplierId);
    NothingOwed(c.books, d.supplierId, f);
    assert CaseAmount(c, f)(d) == BranchCase(c)(d) * Pick(f, RunFor(c.books)(d.supplierId));
  }

  lemma SharesOverSuppliers(c: Cases, f: Figure)
    ensures var ks := GroupKeys(DueSchedule(c.books).records, DueSupplier());
            Sum(RunRows(c.books), SupplierShare(c, f)) == Sum(ks,
                GroupTotal(c.disputes, DisputeSupplier(), CaseAmount(c, f)))
  {
    hide Sum, DueSchedule, GroupKeys, GroupFold, Map, CaseAmount;
    var b := c.books;
    var xs := DueSchedule(b).records;
    forall k ensures SupplierShare(c, f)(Grouped(xs, DueSupplier(), StartRun(b), AddDue())(k))
                  == GroupTotal(c.disputes, DisputeSupplier(), CaseAmount(c, f))(k)
    {
      RunNamesSupplier(b, xs, k);
      ShareIsGrouped(c, f, c.disputes, k);
      assert ShareOf(c, f)(k) == OpenAgainst(c)(k) * Pick(f, RunFor(b)(k));
    }
    MapSum(GroupKeys(xs, DueSupplier()), Grouped(xs, DueSupplier(), StartRun(b), AddDue()), SupplierShare(c, f),
           GroupTotal(c.disputes, DisputeSupplier(), CaseAmount(c, f)));
  }

  /**
   * Aggregation law: each of the three blocked totals is the sum over the blocked suppliers of their number of open
   * disputes times their blocked amount, because the report counts one share per dispute.
   */
  lemma BlockedTotalsAreShares(c: Cases, f: Figure)
    ensures BlockedTotal(f, Escalations(c)) == Sum(Blockers(c).records, Shares(f))
  {
    EscalatedPerDispute(c, f);
    SharesPerDispute(c, f);
  }
}
