/** The order in which the reports list their records. */
module ReportOrder {
  import opened Folds
  import opened Inventory
  import opened Ordering
  import opened SupplierPayables
  import opened SupplierAging
  import opened SupplierDueSchedule
  import opened SupplierStatements
  import opened SupplierPaymentRun
  import opened SupplierSettlement
  import opened SupplierPaymentRegister
  import opened VendorDisputes
  import opened SupplierExceptions
  import opened SupplierSettlementBlockers
  import opened SupplierEscalations
  import CustomerReports
  import Receiving

  lemma {:induction false} InOrder<T>(xs: seq<T>, key: T -> Key, i: int, j: int)
    requires 0 <= i < j < |SortBy(xs, key)|
    ensures KeyLeq(key(SortBy(xs, key)[i]), key(SortBy(xs, key)[j]))
  {
    SortBySorts(xs, key);
  }

  /** Keys that begin with three numbers are compared number by number. */
  lemma {:induction false} ThirdDecides(a: int, b: int, c: int, k: Key, d: int, e: int, f: int, l: Key)
    requires KeyLeq(By(a, By(b, By(c, k))), By(d, By(e, By(f, l))))
    ensures a < d || (a == d && (b < e || (b == e && c <= f)))
  {
    assert a == d ==> KeyLeq(By(b, By(c, k)), By(e, By(f, l)));
    assert a == d && b == e ==> KeyLeq(By(c, k), By(f, l));
  }

  /** Oldest first, and among equals the largest amount first. */
  lemma AgingInOrder(b: Books, i: int, j: int)
    requires 0 <= i < j < |Aging(b).records|
    ensures var x, y := Aging(b).records[i], Aging(b).records[j];
            x.ageDays > y.ageDays || (x.ageDays == y.ageDays && x.outstanding >= y.outstanding)
  {
    hide SortBy, FilterMap, Sum;
    InOrder(FilterMap(b.invoices, IsOpen(b), AgingRow(b)), AgingKey(), i, j);
  }

  /** Earliest due first, and among equals the largest amount first. */
  lemma DueInOrder(b: Books, i: int, j: int)
    requires 0 <= i < j < |DueSchedule(b).records|
    ensures var x, y := DueSchedule(b).records[i], DueSchedule(b).records[j];
            x.dueDate < y.dueDate || (x.dueDate == y.dueDate && x.outstanding >= y.outstanding)
  {
    hide SortBy, FilterMap, Sum;
    InOrder(DueRows(b), DueKey(), i, j);
  }

  /** Largest balance first, and among equals the oldest open invoice first. */
  lemma StatementsInOrder(b: Books, i: int, j: int)
    requires 0 <= i < j < |Statements(b).records|
    ensures var x, y := Statements(b).records[i], Statements(b).records[j];
            && x.outstanding >= y.outstanding
            && (x.outstanding == y.outstanding && x.oldestDate.Some? && y.oldestDate.Some? ==>
                  x.oldestDate.value <= y.oldestDate.value)
  {
    hide SortBy, Groups, Sum, Lines;
    InOrder(StatementRows(b), StatementKey(), i, j);
  }

  /** Most to release now first, then the earliest due date. */
  lemma RunInOrder(b: Books, i: int, j: int)
    requires 0 <= i < j < |PaymentRun(b).records|
    ensures var x, y := PaymentRun(b).records[i], PaymentRun(b).records[j];
            && x.releaseNow >= y.releaseNow
            && (x.releaseNow == y.releaseNow && x.nextDueDate.Some? && y.nextDueDate.Some? ==>
                  x.nextDueDate.value <= y.nextDueDate.value)
  {
    hide SortBy, Groups, Sum, DueSchedule;
    InOrder(RunRows(b), RunKey(), i, j);
  }

  /** High risk before watch before low; within a risk the largest overdue amount first. */
  lemma SettlementInOrder(b: Books, i: int, j: int)
    requires 0 <= i < j < |Settlement(b).records|
    ensures var x, y := Settlement(b).records[i], Settlement(b).records[j];
            && (y.risk == High ==> x.risk == High) && (x.risk == Low ==> y.risk == Low)
            && (x.risk == y.risk ==> x.overdue > y.overdue || (x.overdue == y.overdue && x.dueIn7Days >= y.dueIn7Days))
  {
    hide SortBy, Groups, Sum, DueSchedule, Assessed, Map;
    InOrder(Map(Summaries(b), Assessed(b)), RiskKey(), i, j);
    var x, y := Settlement(b).records[i], Settlement(b).records[j];
    ThirdDecides(-RiskOrder(x.risk), -x.overdue, -x.dueIn7Days, RiskKey()(x).rest.rest.rest,
                 -RiskOrder(y.risk), -y.overdue, -y.dueIn7Days, RiskKey()(y).rest.rest.rest);
  }

  /** Newest payment first. */
  lemma RegisterInOrder(b: Books, i: int, j: int)
    requires 0 <= i < j < |Register(b).records|
    ensures Register(b).records[i].paidOn >= Register(b).records[j].paidOn
  {
    hide SortBy, RegisterRows, Sum, LatestDate;
    var xs := Reversed(RegisterRows(b));
    var n := |SortBy(xs, RowOrder())|;
    InOrder(xs, RowOrder(), n - 1 - j, n - 1 - i);
  }

  /** Open disputes before resolved ones, overdue ones before others, and the longest open first. */
  lemma BoardInOrder(c: Cases, i: int, j: int)
    requires 0 <= i < j < |VendorDisputes.Board(c).records|
    ensures var x, y := VendorDisputes.Board(c).records[i], VendorDisputes.Board(c).records[j];
            && (y.open ==> x.open) && (x.open == y.open && y.overdue ==> x.overdue)
            && (x.open == y.open && x.overdue == y.overdue ==> x.ageDays >= y.ageDays)
  {
    hide SortBy, BoardRows, Sum;
    InOrder(BoardRows(c), BoardKey(), i, j);
    var x, y := VendorDisputes.Board(c).records[i], VendorDisputes.Board(c).records[j];
    ThirdDecides(if x.open then 0 else 1, if x.overdue then -1 else 0, -x.ageDays, BoardKey()(x).rest.rest.rest,
                 if y.open then 0 else 1, if y.overdue then -1 else 0, -y.ageDays, BoardKey()(y).rest.rest.rest);
  }

  /** Suppliers that need attention first, those with resolved disputes only last; the latest dispute first. */
  lemma ExceptionsInOrder(c: Cases, i: int, j: int)
    requires 0 <= i < j < |Exceptions(c).records|
    ensures var x, y := Exceptions(c).records[i], Exceptions(c).records[j];
            && (y.status == Attention ==> x.status == Attention)
            && (x.status == ResolvedCases ==> y.status == ResolvedCases)
            && (x.status == y.status && x.latestOpenedOn.Some? && y.latestOpenedOn.Some? ==>
                  x.latestOpenedOn.value >= y.latestOpenedOn.value)
  {
    hide SortBy, ExceptionGroups, Sum, Map;
    InOrder(Map(ExceptionGroups(c), Judge()), ExceptionKey(), i, j);
  }

  /** Hard holds first, then the most that could be released now. */
  lemma BlockersInOrder(c: Cases, i: int, j: int)
    requires 0 <= i < j < |Blockers(c).records|
    ensures var x, y := Blockers(c).records[i], Blockers(c).records[j];
            && (y.hold == HardHold ==> x.hold == HardHold) && (x.hold == y.hold ==> x.releaseNow >= y.releaseNow)
  {
    hide SortBy, BlockerRows, Sum;
    InOrder(BlockerRows(c), BlockerKey(), i, j);
  }

  /** Finance before the owner, then stale cases, then branch follow-up; within a status the most blocked first. */
  lemma EscalationsInOrder(c: Cases, i: int, j: int)
    requires 0 <= i < j < |Escalations(c).records|
    ensures var x, y := Escalations(c).records[i], Escalations(c).records[j];
            && (y.status == FinanceEscalation ==> x.status == FinanceEscalation)
            && (y.status == OwnerEscalation ==> x.status == FinanceEscalation || x.status == OwnerEscalation)
            && (x.status == BranchFollowUp ==> y.status == BranchFollowUp)
            && (x.status == y.status ==> x.blockedNow >= y.blockedNow)
  {
    hide SortBy, EscalationRows, Sum;
    InOrder(EscalationRows(c), EscalationKey(), i, j);
  }

  /** The customer who spent most first, and among equals the one who came most often. */
  lemma CustomersInOrder(shop: CustomerReports.Shop, branchId: Id, i: int, j: int)
    requires 0 <= i < j < |CustomerReports.BranchCustomers(shop, branchId).top|
    ensures var x, y := CustomerReports.BranchCustomers(shop, branchId).top[i],
                CustomerReports.BranchCustomers(shop, branchId).top[j];
            x.salesTotal > y.salesTotal || (x.salesTotal == y.salesTotal && x.salesCount >= y.salesCount)
  {
    hide SortBy, CustomerReports.CustomerRows, Sum, CustomerReports.Activities;
    InOrder(CustomerReports.CustomerRows(shop, branchId), CustomerReports.TopKey(), i, j);
  }

  /** Orders that can be received first, received ones last. */
  lemma ReceivingInOrder(d: Receiving.Desk, i: int, j: int)
    requires 0 <= i < j < |Receiving.Board(d).records|
    ensures var x, y := Receiving.Board(d).records[i], Receiving.Board(d).records[j];
            && (y.status == Receiving.Ready ==> x.status == Receiving.Ready)
            && (x.status == Receiving.Received ==> y.status == Receiving.Received)
  {
    hide SortBy, Receiving.BoardRecords, Sum;
    InOrder(Receiving.BoardRecords(d), Receiving.BoardOrder(), i, j);
  }
}
