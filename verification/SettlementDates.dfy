/** The figures of the settlement reports, straight from the invoices, the payments and the dates. */
module SettlementDates {
  import opened Folds
  import opened Inventory
  import opened Entities
  import opened Money
  import opened Ordering
  import opened SupplierPayables
  import opened SupplierAging
  import opened SupplierDueSchedule
  import opened SupplierStatements
  import opened SupplierPaymentRun
  import opened SupplierSettlement

  // ---- spans of days ----

  function UpTo(n: int): int -> bool { (d: int) => d <= n }
  function Between(lo: int, hi: int): int -> bool { (d: int) => lo <= d <= hi }
  function Beyond(n: int): int -> bool { (d: int) => d > n }
  function AnyDay(): int -> bool { (d: int) => true }

  /** What is open at the branch on an invoice that falls due that many days from now. */
  function DueIn(b: Books, span: int -> bool): PurchaseInvoice -> int
  {
    (v: PurchaseInvoice) => if v.branchId == b.branchId && span(v.dueDate - b.asOf) then OpenOf(b)(v) else 0
  }

  /** What is open at the branch on an invoice of that many days ago. */
  function AgedIn(b: Books, span: int -> bool): PurchaseInvoice -> int
  {
    (v: PurchaseInvoice) => if v.branchId == b.branchId && span(b.asOf - v.invoiceDate) then OpenOf(b)(v) else 0
  }

  /** One for an invoice of the branch that is open and falls due that many days from now. */
  function CountIn(b: Books, span: int -> bool): PurchaseInvoice -> int
  {
    (v: PurchaseInvoice) =>
      if v.branchId == b.branchId && OpenOf(b)(v) > 0 && span(v.dueDate - b.asOf) then 1 else 0
  }

  function ToSupplier(b: Books, f: PurchaseInvoice -> int): Id -> int { GroupTotal(b.invoices, SupplierOf(), f) }

  ghost predicate Spans(st: DueStatus, span: int -> bool) { forall d :: span(d) <==> ResolveDueStatus(d) == st }

  // ---- the due schedule ----

  lemma ScheduledIn(b: Books, st: DueStatus, span: int -> bool)
    requires Spans(st, span)
    ensures Sum(DueRows(b), DueAs(st)) == Sum(b.invoices, DueIn(b, span))
  {
    hide CreditedOn, PaidOn, FilterMap, Sum, ResolveDueStatus;
    forall v ensures DueIn(b, span)(v) == if IsOpen(b)(v) then DueAs(st)(DueRow(b)(v)) else 0 { DueRowIs(b, v); }
    FilterMapSum(b.invoices, IsOpen(b), DueRow(b), DueAs(st), DueIn(b, span));
  }

  lemma ScheduledTo(b: Books, st: DueStatus, span: int -> bool, k: Id)
    requires Spans(st, span)
    ensures GroupTotal(DueSchedule(b).records, DueSupplier(), DueAs(st))(k) == ToSupplier(b, DueIn(b, span))(k)
  {
    hide CreditedOn, PaidOn, FilterMap, Sum, SortBy, ResolveDueStatus;
    var f, g := Restrict(DueAs(st), DueSupplier(), k), Restrict(DueIn(b, span), SupplierOf(), k);
    SumPermuted(DueRows(b), DueSchedule(b).records, f);
    forall v ensures g(v) == if IsOpen(b)(v) then f(DueRow(b)(v)) else 0 { DueRowIs(b, v); }
    FilterMapSum(b.invoices, IsOpen(b), DueRow(b), f, g);
  }

  /** The schedule's figures are the open amounts by the number of days until they fall due. */
  lemma DueBuckets(b: Books)
    ensures var r := DueSchedule(b);
            && r.overdue == Sum(b.invoices, DueIn(b, UpTo(-1))) && r.dueToday == Sum(b.invoices, DueIn(b, Between(0, 0)))
            && r.dueIn7Days == Sum(b.invoices, DueIn(b, Between(1, 7)))
            && r.dueIn8To30Days == Sum(b.invoices, DueIn(b, Between(8, 30)))
            && r.dueLater == Sum(b.invoices, DueIn(b, Beyond(30)))
  {
    hide CreditedOn, PaidOn, FilterMap, Sum, SortBy;
    ScheduledIn(b, Overdue, UpTo(-1));
    ScheduledIn(b, DueToday, Between(0, 0));
    ScheduledIn(b, DueIn7Days, Between(1, 7));
    ScheduledIn(b, DueIn8To30Days, Between(8, 30));
    ScheduledIn(b, DueLater, Beyond(30));
  }

  lemma DueCounts(b: Books)
    ensures DueSchedule(b).openCount == Sum(b.invoices, CountIn(b, AnyDay()))
    ensures DueSchedule(b).overdueCount == Sum(b.invoices, CountIn(b, UpTo(-1)))
  {
    hide CreditedOn, PaidOn, FilterMap, Sum, SortBy;
    var rows := DueRows(b);
    SumPermuted(rows, DueSchedule(b).records, IsOverdue());
    forall v
      ensures CountIn(b, UpTo(-1))(v) == if IsOpen(b)(v) then IsOverdue()(DueRow(b)(v)) else 0
      ensures CountIn(b, AnyDay())(v) == if IsOpen(b)(v) then One()(DueRow(b)(v)) else 0
    {
      DueRowIs(b, v);
      OpenIs(b, v);
    }
    FilterMapSum(b.invoices, IsOpen(b), DueRow(b), IsOverdue(), CountIn(b, UpTo(-1)));
    FilterMapSum(b.invoices, IsOpen(b), DueRow(b), One(), CountIn(b, AnyDay()));
    CountIsLength(rows);
  }

  /** What falls due up to one day and from the next day up to another is what falls due up to the other. */
  lemma DueSplits(b: Books, k: Id, n: int, m: int)
    requires n <= m
    ensures ToSupplier(b, DueIn(b, UpTo(n)))(k) + ToSupplier(b, DueIn(b, Between(n + 1, m)))(k)
         == ToSupplier(b, DueIn(b, UpTo(m)))(k)
  {
    hide CreditedOn, PaidOn, Sum;
    SumAdd(b.invoices, Restrict(DueIn(b, UpTo(n)), SupplierOf(), k),
           Restrict(DueIn(b, Between(n + 1, m)), SupplierOf(), k), Restrict(DueIn(b, UpTo(m)), SupplierOf(), k));
  }

  // ---- the payment run ----

  function RunIn30(): RunRecord -> int { (r: RunRecord) => r.dueIn8To30Days }
  function RunLater(): RunRecord -> int { (r: RunRecord) => r.dueLater }

  lemma LaterBucketsAdd()
    ensures forall r, x :: RunIn30()(AddDue()(r, x)) == RunIn30()(r) + DueAs(DueIn8To30Days)(x)
    ensures forall r, x :: RunLater()(AddDue()(r, x)) == RunLater()(r) + DueAs(DueLater)(x)
  {
    hide Schedule;
    forall r, x
      ensures RunIn30()(AddDue()(r, x)) == RunIn30()(r) + DueAs(DueIn8To30Days)(x)
      ensures RunLater()(AddDue()(r, x)) == RunLater()(r) + DueAs(DueLater)(x)
    {
      ScheduleAdds(r, x);
    }
  }

  lemma RunLaterBuckets(b: Books, k: Id)
    ensures var r, xs := RunFor(b)(k), DueSchedule(b).records;
            && r.dueIn8To30Days == GroupTotal(xs, DueSupplier(), DueAs(DueIn8To30Days))(k)
            && r.dueLater == GroupTotal(xs, DueSupplier(), DueAs(DueLater))(k)
  {
    hide Sum, DueSchedule, AddDue;
    var xs := DueSchedule(b).records;
    LaterBucketsAdd();
    GroupedField(xs, DueSupplier(), StartRun(b), AddDue(), RunIn30(), DueAs(DueIn8To30Days), k);
    GroupedField(xs, DueSupplier(), StartRun(b), AddDue(), RunLater(), DueAs(DueLater), k);
  }

  /** A supplier's releases are its open invoices that fall due up to today, within 7 days and within 30 days. */
  lemma ReleasesAreDue(b: Books, k: Id)
    ensures var r := RunFor(b)(k);
            && r.overdue == ToSupplier(b, DueIn(b, UpTo(-1)))(k) && r.releaseNow == ToSupplier(b, DueIn(b, UpTo(0)))(k)
            && r.releaseThisWeek == ToSupplier(b, DueIn(b, UpTo(7)))(k)
            && r.releaseThisMonth == ToSupplier(b, DueIn(b, UpTo(30)))(k)
            && r.dueLater == ToSupplier(b, DueIn(b, Beyond(30)))(k)
  {
    hide DueSchedule, RunFor, ToSupplier, NextIs;
    ScheduledTo(b, Overdue, UpTo(-1), k);
    ScheduledTo(b, DueToday, Between(0, 0), k);
    ScheduledTo(b, DueIn7Days, Between(1, 7), k);
    ScheduledTo(b, DueIn8To30Days, Between(8, 30), k);
    ScheduledTo(b, DueLater, Beyond(30), k);
    RunBuckets(b, k);
    RunLaterBuckets(b, k);
    RunIsBalanced(b, k);
    DueSplits(b, k, -1, 0);
    DueSplits(b, k, 0, 7);
    DueSplits(b, k, 7, 30);
  }

  // ---- report totals ----

  function ScheduledSuppliers(b: Books): seq<Id> { GroupKeys(DueSchedule(b).records, DueSupplier()) }

  lemma OwedIsScheduled(b: Books, span: int -> bool, i: int)
    requires 0 <= i < |b.invoices| && DueIn(b, span)(b.invoices[i]) != 0
    ensures b.invoices[i].supplierId in ScheduledSuppliers(b)
  {
    hide CreditedOn, PaidOn, DueSchedule, GroupKeys, Sum;
    var v := b.invoices[i];
    var f := Restrict(BranchOpen(b), SupplierOf(), v.supplierId);
    forall w ensures f(w) >= 0 { OpenIs(b, w); }
    SumNonNegative(b.invoices, f);
    OpenIs(b, v);
    assert f(v) > 0;
    RunKeys(b, v.supplierId);
  }

  /** Adding a figure over the scheduled suppliers counts every invoice of the branch once. */
  lemma SupplierTotalsAdd(b: Books, span: int -> bool)
    ensures Sum(ScheduledSuppliers(b), ToSupplier(b, DueIn(b, span))) == Sum(b.invoices, DueIn(b, span))
  {
    hide CreditedOn, PaidOn, DueSchedule, GroupKeys, Sum;
    var ks, f := ScheduledSuppliers(b), DueIn(b, span);
    KeyedSum(ks, b.invoices, SupplierOf(), f);
    forall i | 0 <= i < |b.invoices| ensures Within(f, SupplierOf(), ks)(b.invoices[i]) == f(b.invoices[i]) {
      if f(b.invoices[i]) != 0 { OwedIsScheduled(b, span, i); }
    }
    SumSame(b.invoices, Within(f, SupplierOf(), ks), f);
  }

  lemma RunTotal(b: Books, field: RunRecord -> int, span: int -> bool)
    requires forall k :: field(RunFor(b)(k)) == ToSupplier(b, DueIn(b, span))(k)
    ensures Sum(PaymentRun(b).records, field) == Sum(b.invoices, DueIn(b, span))
  {
    hide DueSchedule, GroupKeys, GroupFold, Sum, DueIn, ToSupplier, SortBy, Map;
    SumPermuted(RunRows(b), PaymentRun(b).records, field);
    MapSum(ScheduledSuppliers(b), RunFor(b), field, ToSupplier(b, DueIn(b, span)));
    SupplierTotalsAdd(b, span);
  }

  /** The run's totals are the branch's open invoices that fall due up to today, within 7 days and within 30 days. */
  lemma RunTotalsAreDue(b: Books)
    ensures var r := PaymentRun(b);
            && r.releaseNow == Sum(b.invoices, DueIn(b, UpTo(0)))
            && r.releaseThisWeek == Sum(b.invoices, DueIn(b, UpTo(7)))
            && r.releaseThisMonth == Sum(b.invoices, DueIn(b, UpTo(30)))
  {
    hide DueSchedule, Sum, DueIn, ToSupplier, SortBy, RunFor, RunRows, UpTo, Beyond;
    forall k { ReleasesAreDue(b, k); }
    RunTotal(b, RunNow(), UpTo(0));
    RunTotal(b, RunWeek(), UpTo(7));
    RunTotal(b, RunMonth(), UpTo(30));
  }

  // ---- the settlement report ----

  /** A supplier's exposure is what is open on its invoices that are overdue, and on those due within the next 7 days. */
  lemma ExposureIsDue(b: Books, k: Id)
    ensures var s := SettlementFor(b)(k);
            && s.overdue == ToSupplier(b, DueIn(b, UpTo(-1)))(k)
            && s.dueIn7Days == ToSupplier(b, DueIn(b, Between(0, 7)))(k)
  {
    hide DueSchedule, SummaryFor, RunFor, ToSupplier, NextIs, Assessed;
    AssessedKeepsFigures(b, SummaryFor(b)(k));
    SummaryFigures(b, k);
    ScheduledTo(b, Overdue, UpTo(-1), k);
    SettlementMatchesRun(b, k);
    ReleasesAreDue(b, k);
    DueSplits(b, k, -1, 7);
  }

  lemma SettlementTotal(b: Books, field: SettlementRecord -> int, span: int -> bool)
    requires forall k :: field(SettlementFor(b)(k)) == ToSupplier(b, DueIn(b, span))(k)
    ensures Sum(Settlement(b).records, field) == Sum(b.invoices, DueIn(b, span))
  {
    hide DueSchedule, GroupKeys, GroupFold, Sum, DueIn, ToSupplier, SortBy, Map, Assess;
    SumPermuted(Map(Summaries(b), Assessed(b)), Settlement(b).records, field);
    MapSum(Summaries(b), Assessed(b), field, AssessedField(b, field));
    MapSum(ScheduledSuppliers(b), SummaryFor(b), AssessedField(b, field), ToSupplier(b, DueIn(b, span)));
    SupplierTotalsAdd(b, span);
  }

  function AssessedField(b: Books, field: SettlementRecord -> int): SettlementRecord -> int
  {
    (r: SettlementRecord) => field(Assessed(b)(r))
  }

  lemma ExposureTotals(b: Books)
    ensures Settlement(b).overdue == Sum(b.invoices, DueIn(b, UpTo(-1)))
    ensures Settlement(b).dueIn7Days == Sum(b.invoices, DueIn(b, Between(0, 7)))
  {
    hide DueSchedule, Sum, DueIn, ToSupplier, SortBy, SettlementFor, Summaries, UpTo, Between;
    forall k { ExposureIsDue(b, k); }
    SettlementTotal(b, OverdueField(), UpTo(-1));
    SettlementTotal(b, SoonField(), Between(0, 7));
  }

  /** Supplier k has an open invoice at the branch that falls due that many days from now. */
  predicate OwedIn(b: Books, k: Id, span: int -> bool)
  {
    exists v :: v in b.invoices && v.supplierId == k && v.branchId == b.branchId && OpenOf(b)(v) > 0
                && span(v.dueDate - b.asOf)
  }

  lemma OwedShare(b: Books, k: Id, span: int -> bool, v: PurchaseInvoice)
    ensures var x := Restrict(DueIn(b, span), SupplierOf(), k)(v);
            && x >= 0
            && (x > 0 <==> v.supplierId == k && v.branchId == b.branchId && OpenOf(b)(v) > 0 && span(v.dueDate - b.asOf))
  {
    OpenIs(b, v);
  }

  lemma {:induction false} OwedInIsPositive(b: Books, k: Id, span: int -> bool)
    ensures ToSupplier(b, DueIn(b, span))(k) > 0 <==> OwedIn(b, k, span)
  {
    hide OpenOf, DueIn, Sum;
    var f := Restrict(DueIn(b, span), SupplierOf(), k);
    forall i | 0 <= i < |b.invoices| ensures f(b.invoices[i]) >= 0 { OwedShare(b, k, span, b.invoices[i]); }
    SumNonNegative(b.invoices, f);
    if OwedIn(b, k, span) {
      var v :| v in b.invoices && v.supplierId == k && v.branchId == b.branchId && OpenOf(b)(v) > 0
               && span(v.dueDate - b.asOf);
      OwedShare(b, k, span, v);
    } else {
      forall i | 0 <= i < |b.invoices| ensures f(b.invoices[i]) == 0 { OwedShare(b, k, span, b.invoices[i]); }
      SumZero(b.invoices, f);
    }
  }

  /**
   * The risk is high exactly when something is overdue; it is low exactly when nothing is overdue or due within 7 days
   * and the branch has paid the supplier in the last 30 days.
   */
  lemma RiskIsExact(b: Books, k: Id)
    ensures var risk := SettlementFor(b)(k).risk;
            && (risk == High <==> OwedIn(b, k, UpTo(-1)))
            && (risk == Low <==>
                  && !OwedIn(b, k, UpTo(7))
                  && exists p :: p in b.payments && p.branchId == b.branchId && p.supplierId == k
                                 && b.asOf - p.paidOn <= 30)
  {
    hide DueSchedule, SummaryFor, ToSupplier, DueIn, KeyLeq, Latest, SlipsTo;
    var s := SettlementFor(b)(k);
    ExposureIsDue(b, k);
    DueSplits(b, k, -1, 7);
    OwedInIsPositive(b, k, UpTo(-1));
    OwedInIsPositive(b, k, Between(0, 7));
    OwedInIsPositive(b, k, UpTo(7));
    LatestPaymentIsShown(b, k);
    assert s == Assess(b, SummaryFor(b)(k), Latest(SlipsTo(b, SummaryFor(b)(k).supplierId)));
    assert s.daysSince == DaysSince(b, s.latest) && s.risk == RiskStatus(s.overdue, s.dueIn7Days, s.daysSince);
    if s.latest.Some? {
      forall p | p in b.payments && PaysSupplier(b, k)(p) ensures p.paidOn <= s.latest.value.paidOn {
        LaterSlip(p, s.latest.value);
      }
    }
  }

  lemma LaterSlip(p: SupplierPayment, q: SupplierPayment)
    requires KeyLeq(SlipKey(p), SlipKey(q))
    ensures p.paidOn <= q.paidOn
  {
  }

  // ---- ageing and statements ----

  lemma AgedBucket(b: Books, k: Bucket, span: int -> bool)
    requires forall d :: span(d) <==> BucketOf(Max(0, d)) == k
    ensures BucketTotal(Aging(b), k) == Sum(b.invoices, AgedIn(b, span))
  {
    hide CreditedOn, PaidOn, Sum, Aging, BucketOf;
    AgingBuckets(b, k);
    assert forall v :: AgeOf(b)(v) == Max(0, b.asOf - v.invoiceDate);
    SumSame(b.invoices, BranchBucket(b, k), AgedIn(b, span));
  }

  /** The ageing report's figures are the open amounts by the number of days since the invoice. */
  lemma AgingByDays(b: Books)
    ensures var r := Aging(b);
            && r.current == Sum(b.invoices, AgedIn(b, UpTo(0))) && r.days1To30 == Sum(b.invoices, AgedIn(b, Between(1, 30)))
            && r.days31To60 == Sum(b.invoices, AgedIn(b, Between(31, 60)))
            && r.days61Plus == Sum(b.invoices, AgedIn(b, Beyond(60)))
  {
    hide Aging, Sum, AgedIn;
    AgedBucket(b, Current, UpTo(0));
    AgedBucket(b, Days1To30, Between(1, 30));
    AgedBucket(b, Days31To60, Between(31, 60));
    AgedBucket(b, Days61Plus, Beyond(60));
  }

  lemma StatedBucket(b: Books, s: Id, k: Bucket, span: int -> bool)
    requires forall d :: span(d) <==> BucketOf(Max(0, d)) == k
    ensures StatementBucket(k)(StatementFor(b)(s)) == ToSupplier(b, AgedIn(b, span))(s)
  {
    hide Sum, FilterMap, CreditedOn, PaidOn, AddLine, BucketOf;
    ExtendsLinearly(k);
    GroupedField(Lines(b), LineSupplier(), StartStatement(b), AddLine(), StatementBucket(k), LineBucket(k), s);
    var f, g := Restrict(LineBucket(k), LineSupplier(), s), Restrict(AgedIn(b, span), SupplierOf(), s);
    forall v ensures g(v) == if AtBranch(b)(v) then f(LineRow(b)(v)) else 0 { LineRowIs(b, v); }
    FilterMapSum(b.invoices, AtBranch(b), LineRow(b), f, g);
  }

  /** So are those of every supplier's statement. */
  lemma StatementByDays(b: Books, k: Id)
    ensures var s := StatementFor(b)(k);
            && s.current == ToSupplier(b, AgedIn(b, UpTo(0)))(k)
            && s.days1To30 == ToSupplier(b, AgedIn(b, Between(1, 30)))(k)
            && s.days31To60 == ToSupplier(b, AgedIn(b, Between(31, 60)))(k)
            && s.days61Plus == ToSupplier(b, AgedIn(b, Beyond(60)))(k)
  {
    hide StatementFor, Sum, AgedIn, ToSupplier;
    StatedBucket(b, k, Current, UpTo(0));
    StatedBucket(b, k, Days1To30, Between(1, 30));
    StatedBucket(b, k, Days31To60, Between(31, 60));
    StatedBucket(b, k, Days61Plus, Beyond(60));
  }
}
