/** What could be released to each supplier, and by when (supplier_payment_run.py). */
module SupplierPaymentRun {
  import opened Folds
  import opened Inventory
  import opened Entities
  import opened Ordering
  import opened SupplierPayables
  import opened SupplierDueSchedule
  import opened SupplierStatements

  datatype RunRecord =
    RunRecord(supplierId: Id, supplierName: string, openCount: nat, overdue: int, dueToday: int, dueIn7Days: int,
              dueIn8To30Days: int, dueLater: int, releaseNow: int, releaseThisWeek: int, releaseThisMonth: int,
              outstanding: int, nextDueDate: Option<Date>, nextDueNumber: Option<string>, mostUrgent: Option<DueStatus>)

  datatype RunReport =
    RunReport(supplierCount: nat, releaseNow: int, releaseThisWeek: int, releaseThisMonth: int, outstanding: int,
              records: seq<RunRecord>)

  function DueSupplier(): DueRecord -> Id { (x: DueRecord) => x.supplierId }

  function StartRun(b: Books): Id -> RunRecord
  {
    (k: Id) => RunRecord(k, NameOf(b.suppliers)(k), 0, 0, 0, 0, 0, 0, 0, 0, 0, 0, None, None, None)
  }

  function AddToBucket(r: RunRecord, x: DueRecord): RunRecord
  {
    match x.status
    case Overdue => r.(overdue := r.overdue + x.outstanding)
    case DueToday => r.(dueToday := r.dueToday + x.outstanding)
    case DueIn7Days => r.(dueIn7Days := r.dueIn7Days + x.outstanding)
    case DueIn8To30Days => r.(dueIn8To30Days := r.dueIn8To30Days + x.outstanding)
    case DueLater => r.(dueLater := r.dueLater + x.outstanding)
  }

  function Release(r: RunRecord): RunRecord
  {
    var now := r.overdue + r.dueToday;
    var week := now + r.dueIn7Days;
    r.(releaseNow := now, releaseThisWeek := week, releaseThisMonth := week + r.dueIn8To30Days)
  }

  function NoteNextDue(r: RunRecord, x: DueRecord): RunRecord
  {
    if r.nextDueDate.None? || x.dueDate < r.nextDueDate.value
    then r.(nextDueDate := Some(x.dueDate), nextDueNumber := Some(x.number), mostUrgent := Some(x.status)) else r
  }

  function Schedule(r: RunRecord, x: DueRecord): RunRecord
  {
    NoteNextDue(Release(AddToBucket(r.(openCount := r.openCount + 1, outstanding := r.outstanding + x.outstanding), x)), x)
  }

  function AddDue(): (RunRecord, DueRecord) -> RunRecord { (r: RunRecord, x: DueRecord) => Schedule(r, x) }

  function RunOpen(): RunRecord -> int { (r: RunRecord) => r.outstanding }
  function RunNow(): RunRecord -> int { (r: RunRecord) => r.releaseNow }
  function RunWeek(): RunRecord -> int { (r: RunRecord) => r.releaseThisWeek }
  function RunMonth(): RunRecord -> int { (r: RunRecord) => r.releaseThisMonth }

  function DateOr(d: Option<Date>): Date { if d.Some? then d.value else FAR_DATE }

  function RunKey(): RunRecord -> Key
  {
    (r: RunRecord) => By(-r.releaseNow, By(DateOr(r.nextDueDate), By(-r.outstanding, ByText(r.supplierName, End))))
  }

  function RunRows(b: Books): seq<RunRecord> { Groups(DueSchedule(b).records, DueSupplier(), StartRun(b), AddDue()) }

  function RunFor(b: Books): Id -> RunRecord { Grouped(DueSchedule(b).records, DueSupplier(), StartRun(b), AddDue()) }

  function PaymentRun(b: Books): RunReport
  {
    var records := SortBy(RunRows(b), RunKey());
    RunReport(|records|, Sum(records, RunNow()), Sum(records, RunWeek()), Sum(records, RunMonth()),
        Sum(records, RunOpen()), records)
  }

  method BuildSupplierPaymentRun(b: Books) returns (report: RunReport)
    ensures report == PaymentRun(b)
  {
    hide Sum, SortBy, Groups, DueSchedule, AddDue, StartRun;
    var schedule := BuildSupplierDueSchedule(b);
    var records := GroupRecords(schedule.records, DueSupplier(), StartRun(b), AddDue());
    records := SortBy(records, RunKey());
    var now := Total(records, RunNow());
    var week := Total(records, RunWeek());
    var month := Total(records, RunMonth());
    var outstanding := Total(records, RunOpen());
    report := RunReport(|records|, now, week, month, outstanding, records);
  }

  // ---- the shape of a record ----

  /** A record of the due schedule: something is open, and its status follows from its due date. */
  predicate Genuine(asOf: Date, x: DueRecord) { x.outstanding > 0 && x.status == ResolveDueStatus(x.dueDate - asOf) }

  predicate DueOf(xs: seq<DueRecord>, k: Id, i: int) { 0 <= i < |xs| && xs[i].supplierId == k }

  /** Record `i` is the next one due of supplier `k`, the first of them on a tie. */
  ghost predicate NextDue(xs: seq<DueRecord>, k: Id, i: int)
  {
    && DueOf(xs, k, i)
    && (forall j :: DueOf(xs, k, j) ==> xs[i].dueDate <= xs[j].dueDate)
    && (forall j :: DueOf(xs, k, j) && j < i ==> xs[i].dueDate < xs[j].dueDate)
  }

  ghost predicate NextIs(xs: seq<DueRecord>, k: Id, r: RunRecord)
  {
    && (r.nextDueDate.None? ==> r.mostUrgent.None? && forall i :: !DueOf(xs, k, i))
    && (r.nextDueDate.Some? ==> exists i ::
          NextDue(xs, k, i) && r.nextDueDate == Some(xs[i].dueDate) && r.nextDueNumber == Some(xs[i].number)
          && r.mostUrgent == Some(xs[i].status))
  }

  ghost predicate Balanced(r: RunRecord)
  {
    && r.releaseNow == r.overdue + r.dueToday && r.releaseThisWeek == r.releaseNow + r.dueIn7Days
    && r.releaseThisMonth == r.releaseThisWeek + r.dueIn8To30Days && r.outstanding == r.releaseThisMonth + r.dueLater
    && r.overdue >= 0 && r.dueToday >= 0 && r.dueIn7Days >= 0 && r.dueIn8To30Days >= 0 && r.dueLater >= 0
  }

  ghost predicate NowIs(asOf: Date, xs: seq<DueRecord>, k: Id, r: RunRecord)
  {
    && (r.releaseNow > 0 <==> exists i :: DueOf(xs, k, i) && xs[i].dueDate <= asOf)
    && (r.overdue > 0 <==> exists i :: DueOf(xs, k, i) && xs[i].dueDate < asOf)
    && (r.outstanding > 0 <==> exists i :: DueOf(xs, k, i))
  }

  lemma ScheduleAdds(r: RunRecord, x: DueRecord)
    ensures var r' := Schedule(r, x);
            && r'.outstanding == r.outstanding + x.outstanding && r'.overdue == r.overdue + DueAs(Overdue)(x)
            && r'.dueToday == r.dueToday + DueAs(DueToday)(x) && r'.dueIn7Days == r.dueIn7Days + DueAs(DueIn7Days)(x)
            && r'.dueIn8To30Days == r.dueIn8To30Days + DueAs(DueIn8To30Days)(x)
                && r'.dueLater == r.dueLater + DueAs(DueLater)(x)
            && r'.releaseNow == r'.overdue + r'.dueToday && r'.releaseThisWeek == r'.releaseNow + r'.dueIn7Days
            && r'.releaseThisMonth == r'.releaseThisWeek + r'.dueIn8To30Days
            && r'.nextDueDate == NoteNextDue(r, x).nextDueDate && r'.nextDueNumber == NoteNextDue(r, x).nextDueNumber
            && r'.mostUrgent == NoteNextDue(r, x).mostUrgent
  {
  }

  lemma NextStep(xs: seq<DueRecord>, k: Id, r: RunRecord)
    requires |xs| > 0 && NextIs(xs[..|xs| - 1], k, r)
    ensures NextIs(xs, k, if xs[|xs| - 1].supplierId == k then Schedule(r, xs[|xs| - 1]) else r)
  {
    hide Schedule;
    var n := |xs| - 1;
    var front, x := xs[..n], xs[n];
    ScheduleAdds(r, x);
    assert forall i :: DueOf(xs, k, i) <==> DueOf(front, k, i) || (i == n && x.supplierId == k);
    if r.nextDueDate.Some? {
      var i :| NextDue(front, k, i) && r.nextDueDate == Some(front[i].dueDate) && r.nextDueNumber == Some(front[i].number)
               && r.mostUrgent == Some(front[i].status);
      if DueOf(xs, k, n) && x.dueDate < front[i].dueDate {
        assert NextDue(xs, k, n);
      } else {
        assert NextDue(xs, k, i);
      }
    } else if DueOf(xs, k, n) {
      assert NextDue(xs, k, n);
    }
  }

  lemma NowStep(asOf: Date, xs: seq<DueRecord>, k: Id, r: RunRecord)
    requires |xs| > 0 && Balanced(r) && NowIs(asOf, xs[..|xs| - 1], k, r) && Genuine(asOf, xs[|xs| - 1])
    ensures var r' := if xs[|xs| - 1].supplierId == k then Schedule(r, xs[|xs| - 1]) else r;
            Balanced(r') && NowIs(asOf, xs, k, r')
  {
    hide Schedule;
    var n := |xs| - 1;
    var front, x := xs[..n], xs[n];
    ScheduleAdds(r, x);
    assert forall i :: DueOf(xs, k, i) <==> DueOf(front, k, i) || (i == n && x.supplierId == k);
    assert forall i :: DueOf(front, k, i) ==> front[i] == xs[i];
  }

  lemma {:induction false} RunShape(b: Books, xs: seq<DueRecord>, k: Id)
    requires forall i :: 0 <= i < |xs| ==> Genuine(b.asOf, xs[i])
    ensures var r := GroupFold(xs, DueSupplier(), StartRun(b), AddDue(), k);
            Balanced(r) && NowIs(b.asOf, xs, k, r) && NextIs(xs, k, r)
  {
    hide Schedule, NextIs, NowIs, Balanced;
    if |xs| == 0 {
      RunStarts(b, xs, k);
    } else {
      var n := |xs| - 1;
      RunShape(b, xs[..n], k);
      var r := GroupFold(xs[..n], DueSupplier(), StartRun(b), AddDue(), k);
      NextStep(xs, k, r);
      NowStep(b.asOf, xs, k, r);
    }
  }

  lemma RunStarts(b: Books, xs: seq<DueRecord>, k: Id)
    requires |xs| == 0
    ensures var r := StartRun(b)(k); Balanced(r) && NowIs(b.asOf, xs, k, r) && NextIs(xs, k, r)
  {
  }

  /** The schedule's records are the open invoices of the branch. */
  lemma ScheduleIsGenuine(b: Books)
    ensures var xs := DueSchedule(b).records; forall i :: 0 <= i < |xs| ==> Genuine(b.asOf, xs[i])
  {
    hide SortBy, FilterMap, CreditedOn, PaidOn, Sum;
    var xs := DueSchedule(b).records;
    forall i | 0 <= i < |xs| ensures Genuine(b.asOf, xs[i]) {
      SortByMembers(DueRows(b), DueKey(), xs[i]);
      FilterMapMember(b.invoices, IsOpen(b), DueRow(b), xs[i]);
      var j :| 0 <= j < |b.invoices| && IsOpen(b)(b.invoices[j]) && DueRow(b)(b.invoices[j]) == xs[i];
      DueRowIs(b, b.invoices[j]);
      OpenIs(b, b.invoices[j]);
    }
  }

  lemma RunIsBalanced(b: Books, k: Id)
    ensures Balanced(RunFor(b)(k))
  {
    hide DueSchedule, NextIs, NowIs, Balanced;
    ScheduleIsGenuine(b);
    RunShape(b, DueSchedule(b).records, k);
  }

  predicate Pressing(s: Option<DueStatus>) { s == Some(Overdue) || s == Some(DueToday) }

  /**
   * For every supplier the releases grow from now to this week to this month and leave exactly what is due later;
   * something can be released now exactly when the most urgent status says so, and the next due date is the earliest.
   */
  lemma PaymentRunStructure(b: Books, k: Id)
    ensures var r := RunFor(b)(k);
            && 0 <= r.releaseNow <= r.releaseThisWeek <= r.releaseThisMonth
            && r.releaseThisMonth + r.dueLater == r.outstanding
            && (r.releaseNow > 0 <==> Pressing(r.mostUrgent)) && (r.overdue > 0 <==> r.mostUrgent == Some(Overdue))
            && (r.nextDueDate.None? <==> r.outstanding == 0) && NextIs(DueSchedule(b).records, k, r)
  {
    hide DueSchedule, Schedule, NextIs;
    var xs, r := DueSchedule(b).records, RunFor(b)(k);
    ScheduleIsGenuine(b);
    RunShape(b, xs, k);
    UrgencyIsNextDue(b.asOf, xs, k, r);
  }

  lemma UrgencyIsNextDue(asOf: Date, xs: seq<DueRecord>, k: Id, r: RunRecord)
    requires forall i :: 0 <= i < |xs| ==> Genuine(asOf, xs[i])
    requires Balanced(r) && NowIs(asOf, xs, k, r) && NextIs(xs, k, r)
    ensures r.releaseNow > 0 <==> Pressing(r.mostUrgent)
    ensures r.overdue > 0 <==> r.mostUrgent == Some(Overdue)
    ensures r.nextDueDate.None? <==> r.outstanding == 0
  {
    if r.nextDueDate.Some? {
      var i :| NextDue(xs, k, i) && r.nextDueDate == Some(xs[i].dueDate) && r.mostUrgent == Some(xs[i].status);
      assert Genuine(asOf, xs[i]);
      assert DueOf(xs, k, i);
    }
  }

  // ---- totals ----

  lemma SchedulesLinearly()
    ensures forall r, x :: RunOpen()(AddDue()(r, x)) == RunOpen()(r) + DueAmount()(x)
  {
    hide Schedule;
    forall r, x ensures RunOpen()(AddDue()(r, x)) == RunOpen()(r) + DueAmount()(x) { ScheduleAdds(r, x); }
  }

  /** The payment run adds up to the branch's outstanding total. */
  lemma RunOutstanding(b: Books)
    ensures PaymentRun(b).outstanding == Sum(b.invoices, BranchOpen(b))
  {
    hide Sum, SortBy, FilterMap, CreditedOn, PaidOn, Groups, AddDue;
    SumPermuted(RunRows(b), PaymentRun(b).records, RunOpen());
    SchedulesLinearly();
    GroupsTotal(DueSchedule(b).records, DueSupplier(), StartRun(b), AddDue(), RunOpen(), DueAmount());
    SumPermuted(DueRows(b), DueSchedule(b).records, DueAmount());
    forall v { DueRowIs(b, v); }
    FilterMapSum(b.invoices, IsOpen(b), DueRow(b), DueAmount(), BranchOpen(b));
  }

  /** Per supplier it is what the invoices say the supplier is owed. */
  lemma RunOwes(b: Books, k: Id)
    ensures RunFor(b)(k).outstanding == SupplierOpen(b)(k)
  {
    hide Sum, SortBy, FilterMap, CreditedOn, PaidOn, AddDue;
    SchedulesLinearly();
    GroupedField(DueSchedule(b).records, DueSupplier(), StartRun(b), AddDue(), RunOpen(), DueAmount(), k);
    ScheduledAmount(b, k);
  }

  lemma ScheduledAmount(b: Books, k: Id)
    ensures GroupTotal(DueSchedule(b).records, DueSupplier(), DueAmount())(k) == SupplierOpen(b)(k)
  {
    hide Sum, SortBy, FilterMap, CreditedOn, PaidOn;
    SumPermuted(DueRows(b), DueSchedule(b).records, Restrict(DueAmount(), DueSupplier(), k));
    forall v { DueRowIs(b, v); }
    FilterMapSum(b.invoices, IsOpen(b), DueRow(b), Restrict(DueAmount(), DueSupplier(), k),
                 Restrict(BranchOpen(b), SupplierOf(), k));
  }

  // ---- one record per supplier ----

  lemma {:induction false} RunNamesSupplier(b: Books, xs: seq<DueRecord>, k: Id)
    ensures GroupFold(xs, DueSupplier(), StartRun(b), AddDue(), k).supplierId == k
  {
    if |xs| > 0 { RunNamesSupplier(b, xs[..|xs| - 1], k); }
  }

  function RunSupplier(): RunRecord -> Id { (r: RunRecord) => r.supplierId }

  lemma RunListsOnce(b: Books)
    ensures DistinctBy(PaymentRun(b).records, RunSupplier())
  {
    hide DueSchedule, SortBy, GroupFold, GroupKeys, Map, AddDue, StartRun, DueSupplier, Sum;
    var xs := DueSchedule(b).records;
    forall k ensures RunSupplier()(GroupFold(xs, DueSupplier(), StartRun(b), AddDue(), k)) == k {
      RunNamesSupplier(b, xs, k);
    }
    DistinctGroups(xs, DueSupplier(), StartRun(b), AddDue(), RunSupplier());
    DistinctPermuted(RunRows(b), SortBy(RunRows(b), RunKey()), RunSupplier());
  }

  /** The payment run has one record for every supplier that is owed money, and no other. */
  lemma RunRecords(b: Books, r: RunRecord)
    ensures r in PaymentRun(b).records <==> SupplierOpen(b)(r.supplierId) > 0 && r == RunFor(b)(r.supplierId)
    ensures DistinctBy(PaymentRun(b).records, RunSupplier())
  {
    RunListsOnce(b);
    hide DueSchedule, SortBy, GroupFold, GroupKeys, SupplierOpen, AddDue, StartRun, DueSupplier;
    var xs := DueSchedule(b).records;
    SortByMembers(RunRows(b), RunKey(), r);
    GroupMember(xs, DueSupplier(), StartRun(b), AddDue(), r);
    forall k ensures RunFor(b)(k).supplierId == k && (k in GroupKeys(xs, DueSupplier()) <==> SupplierOpen(b)(k) > 0) {
      RunNamesSupplier(b, xs, k);
      RunKeys(b, k);
    }
  }

  lemma RunKeys(b: Books, k: Id)
    ensures k in GroupKeys(DueSchedule(b).records, DueSupplier()) <==> SupplierOpen(b)(k) > 0
  {
    hide DueSchedule, AddDue, StartRun, NextIs, Balanced, SupplierOpen;
    var xs := DueSchedule(b).records;
    ScheduleIsGenuine(b);
    RunShape(b, xs, k);
    RunOwes(b, k);
    if k in GroupKeys(xs, DueSupplier()) {
      var i :| 0 <= i < |xs| && DueSupplier()(xs[i]) == k;
      assert DueOf(xs, k, i);
    }
    if i :| DueOf(xs, k, i) { assert DueSupplier()(xs[i]) in GroupKeys(xs, DueSupplier()); }
  }
}
