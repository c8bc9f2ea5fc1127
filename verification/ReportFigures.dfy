/** Counts and totals of the reports, straight from the documents they are built from. */
module ReportFigures {
  import opened Folds
  import opened Inventory
  import opened Entities
  import opened Ordering
  import opened StateModel
  import Handlers
  import opened SupplierPayables
  import opened SupplierStatements
  import opened SupplierPaymentRun
  import opened SupplierPaymentRegister
  import opened VendorDisputes
  import opened SupplierExceptions
  import opened SupplierSettlementBlockers
  import opened SupplierEscalations
  import opened SettlementDates

  // ---- payables and statements ----

  /** `f` on the invoices of the branch. */
  function Here(b: Books, f: PurchaseInvoice -> int): PurchaseInvoice -> int
  {
    (v: PurchaseInvoice) => if v.branchId == b.branchId then f(v) else 0
  }

  function Invoiced(): PurchaseInvoice -> int { (v: PurchaseInvoice) => v.totals.grandTotal }
  function CreditedBy(b: Books): PurchaseInvoice -> int { (v: PurchaseInvoice) => CreditedOn(b)(v.id) }
  function OpenOnes(b: Books): PurchaseInvoice -> int { (v: PurchaseInvoice) => if OpenOf(b)(v) > 0 then 1 else 0 }

  /** The payables report adds up what the branch was invoiced, what was credited and what was paid on those invoices. */
  lemma PayablesTotals(b: Books)
    ensures var r := Payables(b);
            && r.invoiced == Sum(b.invoices, Here(b, Invoiced())) && r.credited == Sum(b.invoices, Here(b, CreditedBy(b)))
            && r.paid == Sum(b.invoices, Here(b, PaidOf(b)))
  {
    hide CreditedOn, PaidOn, Sum, FilterMap, Handlers.OpenAmount;
    forall v
      ensures Here(b, Invoiced())(v) == if AtBranch(b)(v) then RowInvoiced()(PayableRow(b)(v)) else 0
      ensures Here(b, CreditedBy(b))(v) == if AtBranch(b)(v) then RowCredited()(PayableRow(b)(v)) else 0
      ensures Here(b, PaidOf(b))(v) == if AtBranch(b)(v) then RowPaid()(PayableRow(b)(v)) else 0
    {
      OpenIs(b, v);
    }
    FilterMapSum(b.invoices, AtBranch(b), PayableRow(b), RowInvoiced(), Here(b, Invoiced()));
    FilterMapSum(b.invoices, AtBranch(b), PayableRow(b), RowCredited(), Here(b, CreditedBy(b)));
    FilterMapSum(b.invoices, AtBranch(b), PayableRow(b), RowPaid(), Here(b, PaidOf(b)));
  }

  /** An invoice is settled when nothing is open on it, and unpaid while nothing was paid or credited on it either. */
  lemma PayableIsListed(b: Books, v: PurchaseInvoice)
    requires v in b.invoices && v.branchId == b.branchId
    ensures exists r :: r in Payables(b).records && r.invoiceId == v.id && r.outstanding == OpenOf(b)(v)
              && (r.status == Settled <==> OpenOf(b)(v) <= 0)
              && (r.status == Unpaid <==> OpenOf(b)(v) > 0 && CreditedOn(b)(v.id) <= 0 && PaidOn(b)(v.id) <= 0)
  {
    hide CreditedOn, PaidOn, FilterMap, Sum;
    var r := PayableRow(b)(v);
    OpenIs(b, v);
    var i :| 0 <= i < |b.invoices| && b.invoices[i] == v;
    FilterMapMember(b.invoices, AtBranch(b), PayableRow(b), r);
    assert r in Payables(b).records;
  }

  function StatedInvoices(): StatementRecord -> int { (r: StatementRecord) => r.invoiceCount }
  function StatedOpenOnes(): StatementRecord -> int { (r: StatementRecord) => r.openCount }
  function StatedInvoiced(): StatementRecord -> int { (r: StatementRecord) => r.invoiced }
  function StatedCredited(): StatementRecord -> int { (r: StatementRecord) => r.credited }
  function StatedPaid(): StatementRecord -> int { (r: StatementRecord) => r.paid }

  function LineOpenOne(): StatementLine -> int { (l: StatementLine) => if l.outstanding > 0 then 1 else 0 }
  function LineInvoiced(): StatementLine -> int { (l: StatementLine) => l.grandTotal }
  function LineCredited(): StatementLine -> int { (l: StatementLine) => l.credited }
  function LinePaid(): StatementLine -> int { (l: StatementLine) => l.paid }

  lemma ExtendCounts(r: StatementRecord, l: StatementLine)
    ensures var t := Extend(r, l);
            && t.invoiceCount == r.invoiceCount + 1 && t.openCount == r.openCount + (if l.outstanding > 0 then 1 else 0)
            && t.invoiced == r.invoiced + l.grandTotal && t.credited == r.credited + l.credited && t.paid == r.paid + l.paid
  {
  }

  /** A field that grows line by line sums up the supplier's invoices at the branch. */
  lemma StatedField(b: Books, k: Id, field: StatementRecord -> int, f: StatementLine -> int, g: PurchaseInvoice -> int)
    requires field(StartStatement(b)(k)) == 0 && forall r, l :: field(AddLine()(r, l)) == field(r) + f(l)
    requires forall v :: f(LineRow(b)(v)) == g(v)
    ensures field(StatementFor(b)(k)) == ToSupplier(b, Here(b, g))(k)
  {
    hide Sum, FilterMap, CreditedOn, PaidOn, AddLine, StartStatement;
    GroupedField(Lines(b), LineSupplier(), StartStatement(b), AddLine(), field, f, k);
    var h, j := Restrict(f, LineSupplier(), k), Restrict(Here(b, g), SupplierOf(), k);
    forall v ensures j(v) == if AtBranch(b)(v) then h(LineRow(b)(v)) else 0 { LineRowIs(b, v); }
    FilterMapSum(b.invoices, AtBranch(b), LineRow(b), h, j);
  }

  /** A statement counts and adds up the supplier's invoices at the branch. */
  lemma StatementTotals(b: Books, k: Id)
    ensures var s := StatementFor(b)(k);
            && s.invoiceCount == ToSupplier(b, Here(b, One()))(k) && s.openCount == ToSupplier(b, Here(b, OpenOnes(b)))(k)
            && s.invoiced == ToSupplier(b, Here(b, Invoiced()))(k)
            && s.credited == ToSupplier(b, Here(b, CreditedBy(b)))(k) && s.paid == ToSupplier(b, Here(b, PaidOf(b)))(k)
  {
    hide StatementFor, ToSupplier, Extend, CreditedOn, PaidOn, Handlers.OpenAmount;
    forall r, l ensures AddLine()(r, l) == Extend(r, l) {}
    forall r, l
      ensures StatedInvoices()(AddLine()(r, l)) == StatedInvoices()(r) + One()(l)
      ensures StatedOpenOnes()(AddLine()(r, l)) == StatedOpenOnes()(r) + LineOpenOne()(l)
      ensures StatedInvoiced()(AddLine()(r, l)) == StatedInvoiced()(r) + LineInvoiced()(l)
      ensures StatedCredited()(AddLine()(r, l)) == StatedCredited()(r) + LineCredited()(l)
      ensures StatedPaid()(AddLine()(r, l)) == StatedPaid()(r) + LinePaid()(l)
    {
      ExtendCounts(r, l);
    }
    forall v
      ensures LineInvoiced()(LineRow(b)(v)) == Invoiced()(v) && LineCredited()(LineRow(b)(v)) == CreditedBy(b)(v)
      ensures LinePaid()(LineRow(b)(v)) == PaidOf(b)(v) && LineOpenOne()(LineRow(b)(v)) == OpenOnes(b)(v)
    {
      LineRowIs(b, v);
    }
    StatedField(b, k, StatedInvoices(), One(), One());
    StatedField(b, k, StatedOpenOnes(), LineOpenOne(), OpenOnes(b));
    StatedField(b, k, StatedInvoiced(), LineInvoiced(), Invoiced());
    StatedField(b, k, StatedCredited(), LineCredited(), CreditedBy(b));
    StatedField(b, k, StatedPaid(), LinePaid(), PaidOf(b));
  }

  // ---- the payment register ----

  /** The payment is the branch's, and so is an invoice under the id it names. */
  predicate IsRegistered(b: Books, p: SupplierPayment)
  {
    p.branchId == b.branchId && exists v :: v in b.invoices && v.branchId == b.branchId && v.id == p.invoiceId
  }

  function PaidBy(b: Books, methods: set<string>): SupplierPayment -> int
  {
    (p: SupplierPayment) => if IsRegistered(b, p) && p.paymentMethod in methods then p.amount else 0
  }

  /** Amounts paid neither by transfer, nor in cash, nor by UPI. */
  function PaidOtherwise(b: Books): SupplierPayment -> int
  {
    (p: SupplierPayment) =>
      if IsRegistered(b, p) && p.paymentMethod !in {"bank_transfer", "cash", "upi"} then p.amount else 0
  }

  function SlipVia(c: Channel): SupplierPayment -> int
  {
    (p: SupplierPayment) => if ChannelOf(p.paymentMethod) == c then p.amount else 0
  }

  lemma RegisteredMeans(b: Books, p: SupplierPayment)
    ensures Registers(b)(p) <==> IsRegistered(b, p)
  {
    hide FilterMap, Rebuild;
    var mine := BranchInvoices(b);
    RebuildMember(mine, InvoiceId(), p.invoiceId);
    forall v ensures v in mine <==> v in b.invoices && v.branchId == b.branchId {
      FilterMapMember(b.invoices, AtBranch(b), Whole(), v);
    }
    if i :| 0 <= i < |mine| && InvoiceId()(mine[i]) == p.invoiceId { assert mine[i] in mine; }
    if v :| v in mine && v.id == p.invoiceId {
      var i :| 0 <= i < |mine| && mine[i] == v;
      assert InvoiceId()(mine[i]) == p.invoiceId;
    }
  }

  lemma {:induction false} RunningVia(b: Books, bill: PurchaseInvoice, credited: int, ps: seq<SupplierPayment>, c: Channel)
    ensures Sum(Running(b, bill, credited, ps), Via(c)) == Sum(ps, SlipVia(c))
  {
    if |ps| > 0 {
      var n := |ps| - 1;
      RunningVia(b, bill, credited, ps[..n], c);
      SumSnoc(Running(b, bill, credited, ps[..n]), MakeRow(b, bill, credited, ps[n], Sum(ps, SlipAmount())), Via(c));
    }
  }

  lemma RowsForVia(b: Books, k: Id, c: Channel)
    requires k in BillsById(b)
    ensures Sum(RowsFor(b, k), Via(c)) == GroupTotal(Registered(b), SlipBill(), SlipVia(c))(k)
  {
    hide Sum, FilterMap, BillsById, SortBy, Running, CreditedOn, ChannelOf;
    RunningVia(b, BillsById(b)[k], CreditedOn(b)(k), SortBy(PaymentsOn(b, k), SlipOrder()), c);
    SumPermuted(PaymentsOn(b, k), SortBy(PaymentsOn(b, k), SlipOrder()), SlipVia(c));
    FilterMapSum(Registered(b), IsOn(k), Whole(), SlipVia(c), Restrict(SlipVia(c), SlipBill(), k));
  }

  lemma {:induction false} RowsOverVia(b: Books, ks: seq<Id>, c: Channel)
    requires forall k :: k in ks ==> k in BillsById(b)
    ensures Sum(RowsOver(b, ks), Via(c)) == Sum(ks, GroupTotal(Registered(b), SlipBill(), SlipVia(c)))
  {
    hide BillsById, RowsFor, GroupTotal, Registered;
    if |ks| > 0 {
      var n := |ks| - 1;
      RowsOverVia(b, ks[..n], c);
      SumConcat(RowsOver(b, ks[..n]), RowsFor(b, ks[n]), Via(c));
      RowsForVia(b, ks[n], c);
    }
  }

  lemma ChannelTotal(b: Books, c: Channel, g: SupplierPayment -> int)
    requires forall p :: g(p) == if IsRegistered(b, p) then SlipVia(c)(p) else 0
    ensures Sum(RegisterRows(b), Via(c)) == Sum(b.payments, g)
  {
    hide Sum, FilterMap, BillsById, GroupKeys, RowsOver, IsRegistered;
    RegisteredHaveBills(b);
    RowsOverVia(b, GroupKeys(Registered(b), SlipBill()), c);
    GroupSum(Registered(b), SlipBill(), SlipVia(c));
    forall p ensures g(p) == if Registers(b)(p) then SlipVia(c)(p) else 0 { RegisteredMeans(b, p); }
    FilterMapSum(b.payments, Registers(b), Whole(), SlipVia(c), g);
  }

  /** The method totals are the registered payments made by bank transfer, in cash, by UPI and in any other way. */
  lemma MethodTotals(b: Books)
    ensures var r := Register(b);
            && r.bankTransfer == Sum(b.payments, PaidBy(b, {"bank_transfer"}))
            && r.cash == Sum(b.payments, PaidBy(b, {"cash"})) && r.upi == Sum(b.payments, PaidBy(b, {"upi"}))
            && r.other == Sum(b.payments, PaidOtherwise(b))
  {
    hide Sum, RegisterRows, IsRegistered;
    ChannelTotal(b, BankTransfer, PaidBy(b, {"bank_transfer"}));
    ChannelTotal(b, Cash, PaidBy(b, {"cash"}));
    ChannelTotal(b, Upi, PaidBy(b, {"upi"}));
    ChannelTotal(b, Other, PaidOtherwise(b));
  }

  /** The latest date shown is the date of some row, and no row is later. */
  lemma {:induction false} LatestDateIs(rows: seq<RegisterRow>)
    ensures LatestDate(rows).None? <==> |rows| == 0
    ensures LatestDate(rows).Some? ==>
      && (exists r :: r in rows && LatestDate(rows) == Some(r.paidOn))
      && forall r :: r in rows ==> r.paidOn <= LatestDate(rows).value
  {
    if |rows| > 0 {
      var n := |rows| - 1;
      LatestDateIs(rows[..n]);
      assert forall r :: r in rows <==> r in rows[..n] || r == rows[n];
    }
  }

  // ---- disputes and escalations ----

  function BranchDispute(c: Cases): VendorDispute -> int
  {
    (d: VendorDispute) => if d.branchId == c.books.branchId then 1 else 0
  }

  function EitherRow(): DisputeRecord -> int { (r: DisputeRecord) => OpenRow()(r) + ResolvedRow()(r) }

  /** Open and resolved disputes are all the disputes of the branch. */
  lemma BoardCoversBranch(c: Cases)
    ensures Board(c).openCount + Board(c).resolvedCount == Sum(c.disputes, BranchDispute(c))
  {
    hide Sum, FilterMap, AllBills, SortBy, MakeDispute;
    SumAdd(BoardRows(c), OpenRow(), ResolvedRow(), EitherRow());
    FilterMapSum(c.disputes, OfBranch(c), DisputeRow(c), EitherRow(), BranchDispute(c));
  }

  /** One for an open dispute of the branch whose meaning is that status. */
  ghost function Means(c: Cases, e: Escalation): VendorDispute -> int
  {
    (d: VendorDispute) => if d.branchId == c.books.branchId && d.open && MeaningOf(c, d) == e then 1 else 0
  }

  function OpenWithStatus(c: Cases, e: Escalation): DisputeRecord -> int
  {
    (x: DisputeRecord) => if x.open then WithStatus(e)(EscalationRow(BlockersById(c))(x)) else 0
  }

  lemma {:induction false} StatusCount(c: Cases, e: Escalation)
    ensures Sum(EscalationRows(c), WithStatus(e)) == Sum(c.disputes, Means(c, e))
  {
    hide Sum, FilterMap, AllBills, SortBy, VendorDisputes.Resolve, Escalate, MeaningOf, BlockersById, BlockerFor;
    FilterMapSum(Board(c).records, IsOpenRow(), EscalationRow(BlockersById(c)), WithStatus(e), OpenWithStatus(c, e));
    SumPermuted(BoardRows(c), Board(c).records, OpenWithStatus(c, e));
    forall i | 0 <= i < |c.disputes|
      ensures Means(c, e)(c.disputes[i]) == if OfBranch(c)(c.disputes[i]) then
                  OpenWithStatus(c, e)(DisputeRow(c)(c.disputes[i])) else 0
    {
      var d := c.disputes[i];
      DisputeRowIs(c, d);
      if d.branchId == c.books.branchId && d.open {
        DerivedMeaning(c, d);
        BlockerFound(c, d.supplierId);
        assert EscalationRow(BlockersById(c))(DisputeRow(c)(d)) == EscalationFor(c, d);
      }
    }
    FilterMapSum(c.disputes, OfBranch(c), DisputeRow(c), OpenWithStatus(c, e), Means(c, e));
  }

  /** Each status count is the number of open disputes of the branch that mean it. */
  lemma EscalationCounts(c: Cases)
    ensures var r := Escalations(c);
            && r.finance == Sum(c.disputes, Means(c, FinanceEscalation))
            && r.owner == Sum(c.disputes, Means(c, OwnerEscalation))
            && r.stale == Sum(c.disputes, Means(c, StaleCase))
            && r.followUp == Sum(c.disputes, Means(c, BranchFollowUp))
  {
    hide Sum, EscalationRows, SortBy, Means;
    var rows, rs := EscalationRows(c), Escalations(c).records;
    forall e ensures Sum(rs, WithStatus(e)) == Sum(c.disputes, Means(c, e)) {
      SumPermuted(rows, rs, WithStatus(e));
      StatusCount(c, e);
    }
  }

  /** A blocked supplier is on hard hold when one of its disputes has been open for more than seven days. */
  lemma HoldIsExact(c: Cases, r: BlockerRecord)
    requires r in Blockers(c).records
    ensures (r.hold == HardHold <==> SomeLongOpen(c, r.supplierId))
    ensures r.outstanding == SupplierOpen(c.books)(r.supplierId) && r.openCount == OpenAgainst(c)(r.supplierId)
    ensures r.releaseNow == ToSupplier(c.books, DueIn(c.books, UpTo(0)))(r.supplierId)
    ensures r.releaseThisWeek == ToSupplier(c.books, DueIn(c.books, UpTo(7)))(r.supplierId)
  {
    hide Blockers, RunFor, ExceptionFor, SupplierOpen, OpenAgainst, LongAgainst, SomeLongOpen, ToSupplier;
    var k := r.supplierId;
    BlockerRecords(c, r);
    ExceptionCounts(c, k);
    LongCounted(c, k);
    RunOwes(c.books, k);
    ReleasesAreDue(c.books, k);
  }
}
