/** Exposure and payment behaviour per supplier (supplier_settlement.py). */
module SupplierSettlement {
  import opened Folds
  import opened Inventory
  import opened Entities
  import opened Money
  import opened Ordering
  import opened SupplierPayables
  import opened SupplierDueSchedule
  import opened SupplierStatements
  import opened SupplierPaymentRun

  datatype Risk = High | Watch | Low

  datatype SettlementRecord =
    SettlementRecord(supplierId: Id, supplierName: string, outstanding: int, overdue: int, dueIn7Days: int,
                     latest: Option<SupplierPayment>, daysSince: Option<int>, risk: Risk)

  datatype SettlementReport =
    SettlementReport(supplierCount: nat, overdue: int, dueIn7Days: int, outstanding: int, records: seq<SettlementRecord>)

  function RiskStatus(overdue: int, dueIn7Days: int, daysSince: Option<int>): Risk
  {
    if overdue > 0 then High
    else if dueIn7Days > 0 then Watch
    else if daysSince.None? then Watch
    else if daysSince.value > 30 then Watch
    else Low
  }

  function StartSummary(b: Books): Id -> SettlementRecord
  {
    (k: Id) => SettlementRecord(k, NameOf(b.suppliers)(k), 0, 0, 0, None, None, Low)
  }

  function Summarise(r: SettlementRecord, x: DueRecord): SettlementRecord
  {
    var r' := r.(outstanding := r.outstanding + x.outstanding);
    if x.status == Overdue then r'.(overdue := r'.overdue + x.outstanding)
    else if x.status == DueToday || x.status == DueIn7Days then r'.(dueIn7Days := r'.dueIn7Days + x.outstanding)
    else r'
  }

  function AddSummary(): (SettlementRecord, DueRecord) -> SettlementRecord
  {
    (r: SettlementRecord, x: DueRecord) => Summarise(r, x)
  }

  function PaysSupplier(b: Books, k: Id): SupplierPayment -> bool
  {
    (p: SupplierPayment) => p.branchId == b.branchId && p.supplierId == k
  }

  function SlipsTo(b: Books, k: Id): seq<SupplierPayment> { FilterMap(b.payments, PaysSupplier(b, k), Whole()) }

  function SlipKey(p: SupplierPayment): Key { By(p.paidOn, ByText(p.number, ByText(p.id, End))) }

  /** `max(payments, key=...)`: the first payment with the largest date, number and id. */
  function Latest(ps: seq<SupplierPayment>): Option<SupplierPayment>
  {
    if |ps| == 0 then None
    else
      var best := Latest(ps[..|ps| - 1]);
      if best.None? || !KeyLeq(SlipKey(ps[|ps| - 1]), SlipKey(best.value)) then Some(ps[|ps| - 1]) else best
  }

  lemma {:induction false} LatestIsLargest(ps: seq<SupplierPayment>)
    ensures Latest(ps).None? <==> |ps| == 0
    ensures Latest(ps).Some? ==> Latest(ps).value in ps && forall p :: p in ps ==>
        KeyLeq(SlipKey(p), SlipKey(Latest(ps).value))
  {
    if |ps| > 0 {
      var n := |ps| - 1;
      LatestIsLargest(ps[..n]);
      assert forall p :: p in ps <==> p in ps[..n] || p == ps[n];
      KeyTotal(SlipKey(ps[n]), SlipKey(ps[n]));
      var best := Latest(ps[..n]);
      if best.Some? {
        KeyTotal(SlipKey(ps[n]), SlipKey(best.value));
        if !KeyLeq(SlipKey(ps[n]), SlipKey(best.value)) {
          forall p | p in ps[..n] ensures KeyLeq(SlipKey(p), SlipKey(ps[n])) {
            KeyTransitive(SlipKey(p), SlipKey(best.value), SlipKey(ps[n]));
          }
        }
      }
    }
  }

  function DaysSince(b: Books, latest: Option<SupplierPayment>): Option<int>
  {
    if latest.Some? then Some(Max(0, b.asOf - latest.value.paidOn)) else None
  }

  function Assess(b: Books, r: SettlementRecord, latest: Option<SupplierPayment>): SettlementRecord
  {
    var days := DaysSince(b, latest);
    r.(latest := latest, daysSince := days, risk := RiskStatus(r.overdue, r.dueIn7Days, days))
  }

  function Assessed(b: Books): SettlementRecord -> SettlementRecord
  {
    (r: SettlementRecord) => Assess(b, r, Latest(SlipsTo(b, r.supplierId)))
  }

  function RiskOrder(risk: Risk): int { match risk case High => 2 case Watch => 1 case Low => 0 }

  /** `days or -1`: no payment and a payment today sort alike. */
  function DaysOr(days: Option<int>): int { if days.Some? && days.value != 0 then days.value else -1 }

  function RiskKey(): SettlementRecord -> Key
  {
    (r: SettlementRecord) =>
      By(-RiskOrder(r.risk), By(-r.overdue, By(-r.dueIn7Days, By(-DaysOr(r.daysSince), ByText(r.supplierName, End)))))
  }

  function OwedField(): SettlementRecord -> int { (r: SettlementRecord) => r.outstanding }
  function OverdueField(): SettlementRecord -> int { (r: SettlementRecord) => r.overdue }
  function SoonField(): SettlementRecord -> int { (r: SettlementRecord) => r.dueIn7Days }

  function Summaries(b: Books): seq<SettlementRecord>
  {
    Groups(DueSchedule(b).records, DueSupplier(), StartSummary(b), AddSummary())
  }

  function SummaryFor(b: Books): Id -> SettlementRecord
  {
    Grouped(DueSchedule(b).records, DueSupplier(), StartSummary(b), AddSummary())
  }

  function SettlementFor(b: Books): Id -> SettlementRecord { (k: Id) => Assessed(b)(SummaryFor(b)(k)) }

  function Settlement(b: Books): SettlementReport
  {
    var records := SortBy(Map(Summaries(b), Assessed(b)), RiskKey());
    SettlementReport(|records|, Sum(records, OverdueField()), Sum(records, SoonField()), Sum(records, OwedField()), records)
  }

  method LatestPayment(b: Books, k: Id) returns (latest: Option<SupplierPayment>)
    ensures latest == Latest(SlipsTo(b, k))
  {
    hide KeyLeq;
    var ps := Select(b.payments, PaysSupplier(b, k));
    latest := None;
    for i := 0 to |ps|
      invariant latest == Latest(ps[..i])
    {
      assert ps[..i + 1][..i] == ps[..i];
      if latest.None? || !KeyLeq(SlipKey(ps[i]), SlipKey(latest.value)) { latest := Some(ps[i]); }
    }
    assert ps[..|ps|] == ps;
  }

  method AssessAll(b: Books, summaries: seq<SettlementRecord>) returns (records: seq<SettlementRecord>)
    ensures records == Map(summaries, Assessed(b))
  {
    hide Map, Latest, Assess;
    records := [];
    MapEmpty(summaries[..0], Assessed(b));
    for i := 0 to |summaries|
      invariant records == Map(summaries[..i], Assessed(b))
    {
      MapPrefix(summaries, i, Assessed(b));
      var latest := LatestPayment(b, summaries[i].supplierId);
      records := records + [Assess(b, summaries[i], latest)];
    }
    assert summaries[..|summaries|] == summaries;
  }

  method BuildSupplierSettlementReport(b: Books) returns (report: SettlementReport)
    ensures report == Settlement(b)
  {
    hide Sum, SortBy, Groups, DueSchedule, AddSummary, StartSummary, Map, Assessed;
    var schedule := BuildSupplierDueSchedule(b);
    var summaries := GroupRecords(schedule.records, DueSupplier(), StartSummary(b), AddSummary());
    var records := AssessAll(b, summaries);
    records := SortBy(records, RiskKey());
    var overdue := Total(records, OverdueField());
    var dueIn7Days := Total(records, SoonField());
    var outstanding := Total(records, OwedField());
    report := SettlementReport(|records|, overdue, dueIn7Days, outstanding, records);
  }

  lemma SummariesAdd()
    ensures forall r, x :: OwedField()(AddSummary()(r, x)) == OwedField()(r) + DueAmount()(x)
    ensures forall r, x :: OverdueField()(AddSummary()(r, x)) == OverdueField()(r) + DueAs(Overdue)(x)
    ensures forall r, x :: SoonField()(AddSummary()(r, x)) == SoonField()(r) + SoonAmount()(x)
  {
    hide Summarise;
    forall r, x
      ensures OwedField()(AddSummary()(r, x)) == OwedField()(r) + DueAmount()(x)
      ensures OverdueField()(AddSummary()(r, x)) == OverdueField()(r) + DueAs(Overdue)(x)
      ensures SoonField()(AddSummary()(r, x)) == SoonField()(r) + SoonAmount()(x)
    {
      SummariseAdds(r, x);
    }
  }

  lemma SummariseAdds(r: SettlementRecord, x: DueRecord)
    ensures var r' := Summarise(r, x);
            && r'.outstanding == r.outstanding + x.outstanding && r'.overdue == r.overdue + DueAs(Overdue)(x)
            && r'.dueIn7Days == r.dueIn7Days + DueAs(DueToday)(x) + DueAs(DueIn7Days)(x)
  {
  }

  /** Due today or within a week, which this report shows as one figure. */
  function SoonAmount(): DueRecord -> int { (x: DueRecord) => DueAs(DueToday)(x) + DueAs(DueIn7Days)(x) }

  /** The settlement report adds up to the branch's outstanding total. */
  lemma SettlementOutstanding(b: Books)
    ensures Settlement(b).outstanding == Sum(b.invoices, BranchOpen(b))
  {
    hide Sum, SortBy, FilterMap, CreditedOn, PaidOn, Groups, AddSummary, Map, Latest, RiskStatus;
    var rows := Map(Summaries(b), Assessed(b));
    SumPermuted(rows, Settlement(b).records, OwedField());
    MapSum(Summaries(b), Assessed(b), OwedField(), OwedField());
    SummariesAdd();
    GroupsTotal(DueSchedule(b).records, DueSupplier(), StartSummary(b), AddSummary(), OwedField(), DueAmount());
    SumPermuted(DueRows(b), DueSchedule(b).records, DueAmount());
    forall v { DueRowIs(b, v); }
    FilterMapSum(b.invoices, IsOpen(b), DueRow(b), DueAmount(), BranchOpen(b));
  }

  lemma SummaryFigures(b: Books, k: Id)
    ensures var r, xs := SummaryFor(b)(k), DueSchedule(b).records;
            && r.outstanding == GroupTotal(xs, DueSupplier(), DueAmount())(k)
            && r.overdue == GroupTotal(xs, DueSupplier(), DueAs(Overdue))(k)
            && r.dueIn7Days == GroupTotal(xs, DueSupplier(), SoonAmount())(k)
  {
    hide Sum, DueSchedule, AddSummary;
    var xs := DueSchedule(b).records;
    SummariesAdd();
    GroupedField(xs, DueSupplier(), StartSummary(b), AddSummary(), OwedField(), DueAmount(), k);
    GroupedField(xs, DueSupplier(), StartSummary(b), AddSummary(), OverdueField(), DueAs(Overdue), k);
    GroupedField(xs, DueSupplier(), StartSummary(b), AddSummary(), SoonField(), SoonAmount(), k);
  }

  function RunOverdue(): RunRecord -> int { (r: RunRecord) => r.overdue }
  function RunToday(): RunRecord -> int { (r: RunRecord) => r.dueToday }
  function RunIn7(): RunRecord -> int { (r: RunRecord) => r.dueIn7Days }

  lemma BucketsAdd()
    ensures forall r, x :: RunOverdue()(AddDue()(r, x)) == RunOverdue()(r) + DueAs(Overdue)(x)
    ensures forall r, x :: RunToday()(AddDue()(r, x)) == RunToday()(r) + DueAs(DueToday)(x)
    ensures forall r, x :: RunIn7()(AddDue()(r, x)) == RunIn7()(r) + DueAs(DueIn7Days)(x)
  {
    hide Schedule;
    forall r, x
      ensures RunOverdue()(AddDue()(r, x)) == RunOverdue()(r) + DueAs(Overdue)(x)
      ensures RunToday()(AddDue()(r, x)) == RunToday()(r) + DueAs(DueToday)(x)
      ensures RunIn7()(AddDue()(r, x)) == RunIn7()(r) + DueAs(DueIn7Days)(x)
    {
      ScheduleAdds(r, x);
    }
  }

  lemma RunBuckets(b: Books, k: Id)
    ensures var r, xs := RunFor(b)(k), DueSchedule(b).records;
            && r.overdue == GroupTotal(xs, DueSupplier(), DueAs(Overdue))(k)
            && r.dueToday == GroupTotal(xs, DueSupplier(), DueAs(DueToday))(k)
            && r.dueIn7Days == GroupTotal(xs, DueSupplier(), DueAs(DueIn7Days))(k)
  {
    hide Sum, DueSchedule, AddDue;
    var xs := DueSchedule(b).records;
    BucketsAdd();
    GroupedField(xs, DueSupplier(), StartRun(b), AddDue(), RunOverdue(), DueAs(Overdue), k);
    GroupedField(xs, DueSupplier(), StartRun(b), AddDue(), RunToday(), DueAs(DueToday), k);
    GroupedField(xs, DueSupplier(), StartRun(b), AddDue(), RunIn7(), DueAs(DueIn7Days), k);
  }

  lemma AssessedKeepsFigures(b: Books, r: SettlementRecord)
    ensures var a := Assessed(b)(r);
            && a.outstanding == r.outstanding && a.overdue == r.overdue && a.dueIn7Days == r.dueIn7Days
            && (a.risk == High <==> a.overdue > 0)
  {
    hide Latest;
  }

  /**
   * Per supplier the settlement report and the payment run agree: the same amount is open, overdue plus due within a
   * week is this week's release, and the risk is HIGH exactly when the most urgent status is OVERDUE.
   */
  lemma SettlementMatchesRun(b: Books, k: Id)
    ensures var s, r := SettlementFor(b)(k), RunFor(b)(k);
            && s.outstanding == r.outstanding == SupplierOpen(b)(k)
            && s.overdue + s.dueIn7Days == r.releaseThisWeek
            && (s.risk == High <==> r.mostUrgent == Some(Overdue))
  {
    hide Sum, DueSchedule, Assessed, SummaryFor, RunFor, SupplierOpen, NextIs;
    var xs := DueSchedule(b).records;
    AssessedKeepsFigures(b, SummaryFor(b)(k));
    SummaryFigures(b, k);
    RunBuckets(b, k);
    RunOwes(b, k);
    ScheduledAmount(b, k);
    PaymentRunStructure(b, k);
    RunIsBalanced(b, k);
    SumAdd(xs, Restrict(DueAs(DueToday), DueSupplier(), k), Restrict(DueAs(DueIn7Days), DueSupplier(), k),
           Restrict(SoonAmount(), DueSupplier(), k));
  }

  /** The last payment shown is the supplier's payment at the branch with the largest date, number and id. */
  lemma LatestPaymentIsShown(b: Books, k: Id)
    ensures var s := SettlementFor(b)(k);
            && (s.latest.None? <==> forall p :: p in b.payments ==> !PaysSupplier(b, k)(p))
            && (s.latest.Some? ==>
                  && s.latest.value in b.payments && PaysSupplier(b, k)(s.latest.value)
                  && (forall p :: p in b.payments && PaysSupplier(b, k)(p) ==> KeyLeq(SlipKey(p), SlipKey(s.latest.value))))
  {
    hide DueSchedule, Latest, FilterMap, KeyLeq, SlipKey;
    var ps := SlipsTo(b, k);
    SummaryNamesSupplier(b, DueSchedule(b).records, k);
    assert SettlementFor(b)(k) == Assess(b, SummaryFor(b)(k), Latest(SlipsTo(b, SummaryFor(b)(k).supplierId)));
    LatestIsLargest(ps);
    forall p ensures p in ps <==> p in b.payments && PaysSupplier(b, k)(p) {
      FilterMapMember(b.payments, PaysSupplier(b, k), Whole(), p);
    }
  }

  lemma {:induction false} SummaryNamesSupplier(b: Books, xs: seq<DueRecord>, k: Id)
    ensures GroupFold(xs, DueSupplier(), StartSummary(b), AddSummary(), k).supplierId == k
  {
    if |xs| > 0 { SummaryNamesSupplier(b, xs[..|xs| - 1], k); }
  }

  // ---- one record per supplier ----

  function SettlementSupplier(): SettlementRecord -> Id { (r: SettlementRecord) => r.supplierId }

  lemma AssessedNames(b: Books, k: Id)
    ensures SummaryFor(b)(k).supplierId == k && SettlementFor(b)(k).supplierId == k
  {
    hide DueSchedule, GroupFold, Latest, RiskStatus;
    SummaryNamesSupplier(b, DueSchedule(b).records, k);
    assert SettlementFor(b)(k) == Assessed(b)(SummaryFor(b)(k));
  }

  lemma SettlementListsOnce(b: Books)
    ensures DistinctBy(Settlement(b).records, SettlementSupplier())
  {
    hide DueSchedule, SortBy, GroupFold, GroupKeys, AddSummary, StartSummary, DueSupplier, Sum, Latest, RiskStatus;
    var xs := DueSchedule(b).records;
    forall k ensures SettlementSupplier()(GroupFold(xs, DueSupplier(), StartSummary(b), AddSummary(), k)) == k {
      SummaryNamesSupplier(b, xs, k);
    }
    DistinctGroups(xs, DueSupplier(), StartSummary(b), AddSummary(), SettlementSupplier());
    var rows := Map(Summaries(b), Assessed(b));
    assert forall i :: 0 <= i < |rows| ==> SettlementSupplier()(rows[i]) == SettlementSupplier()(Summaries(b)[i]);
    DistinctPermuted(rows, SortBy(rows, RiskKey()), SettlementSupplier());
  }

  /** The settlement report has one record for every supplier that is owed money, and no other. */
  lemma SettlementRecords(b: Books, r: SettlementRecord)
    ensures r in Settlement(b).records <==> SupplierOpen(b)(r.supplierId) > 0 && r == SettlementFor(b)(r.supplierId)
    ensures DistinctBy(Settlement(b).records, SettlementSupplier())
  {
    hide DueSchedule, SortBy, GroupFold, GroupKeys, SupplierOpen, AddSummary, StartSummary, DueSupplier, Map, Assessed, Sum;
    SettlementListsOnce(b);
    var xs := DueSchedule(b).records;
    SortByMembers(Map(Summaries(b), Assessed(b)), RiskKey(), r);
    MapMember(Summaries(b), Assessed(b), r);
    forall s ensures s in Summaries(b) <==> exists k :: k in GroupKeys(xs, DueSupplier()) && SummaryFor(b)(k) == s {
      GroupMember(xs, DueSupplier(), StartSummary(b), AddSummary(), s);
    }
    forall k ensures SettlementFor(b)(k).supplierId == k
        && (k in GroupKeys(xs, DueSupplier()) <==> SupplierOpen(b)(k) > 0) {
      AssessedNames(b, k);
      RunKeys(b, k);
    }
    if r in Settlement(b).records {
      var s :| s in Summaries(b) && Assessed(b)(s) == r;
      var k :| k in GroupKeys(xs, DueSupplier()) && SummaryFor(b)(k) == s;
      assert SettlementFor(b)(k) == r;
    }
    if SupplierOpen(b)(r.supplierId) > 0 && r == SettlementFor(b)(r.supplierId) {
      assert SummaryFor(b)(r.supplierId) in Summaries(b);
    }
  }
}
