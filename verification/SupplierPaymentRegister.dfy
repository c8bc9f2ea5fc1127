/** Every payment of a branch with the invoice's running balance (supplier_payment_register.py). */
module SupplierPaymentRegister {
  import opened Folds
  import opened Inventory
  import opened Entities
  import opened Ordering
  import opened StateModel
  import opened Handlers
  import opened SupplierPayables
  import opened SupplierSettlement

  datatype Channel = BankTransfer | Cash | Upi | Other

  datatype RegisterRow =
    RegisterRow(paymentId: Id, number: string, paidOn: Date, supplierId: Id, supplierName: string, invoiceId: Id,
                invoiceNumber: string, paymentMethod: string, amount: int, grandTotal: int, credited: int, paidAfter: int,
                remaining: int, settled: bool)

  datatype RegisterReport =
    RegisterReport(paymentCount: nat, supplierCount: nat, paid: int, bankTransfer: int, cash: int, upi: int, other: int,
                   latestDate: Option<Date>, records: seq<RegisterRow>)

  function ChannelOf(method_: string): Channel
  {
    if method_ == "bank_transfer" then BankTransfer
    else if method_ == "cash" then Cash
    else if method_ == "upi" then Upi
    else Other
  }

  function BranchInvoices(b: Books): seq<PurchaseInvoice> { FilterMap(b.invoices, AtBranch(b), Whole()) }

  /** `{invoice["id"]: invoice ...}` over the branch's invoices. */
  function BillsById(b: Books): map<Id, PurchaseInvoice> { Rebuild(BranchInvoices(b), InvoiceId(), Whole()) }

  function RegistersIn(b: Books, bills: map<Id, PurchaseInvoice>): SupplierPayment -> bool
  {
    (p: SupplierPayment) => p.branchId == b.branchId && p.invoiceId in bills
  }

  function Registers(b: Books): SupplierPayment -> bool { RegistersIn(b, BillsById(b)) }

  function Registered(b: Books): seq<SupplierPayment> { FilterMap(b.payments, Registers(b), Whole()) }

  function IsOn(k: Id): SupplierPayment -> bool { (p: SupplierPayment) => p.invoiceId == k }

  function PaymentsOn(b: Books, k: Id): seq<SupplierPayment> { FilterMap(Registered(b), IsOn(k), Whole()) }

  function SlipOrder(): SupplierPayment -> Key { (p: SupplierPayment) => SlipKey(p) }

  function MakeRow(b: Books, bill: PurchaseInvoice, credited: int, p: SupplierPayment, paid: int): RegisterRow
  {
    var remaining := OpenAmount(bill.totals.grandTotal, credited, paid);
    RegisterRow(p.id, p.number, p.paidOn, p.supplierId, NameOf(b.suppliers)(p.supplierId), p.invoiceId, bill.number,
                p.paymentMethod, p.amount, bill.totals.grandTotal, credited, paid, remaining, remaining == 0)
  }

  /** The rows of one invoice's payments, each with what was paid up to and including it. */
  function Running(b: Books, bill: PurchaseInvoice, credited: int, ps: seq<SupplierPayment>): (rows: seq<RegisterRow>)
    ensures |rows| == |ps|
  {
    if |ps| == 0 then []
    else
      var n := |ps| - 1;
      Running(b, bill, credited, ps[..n]) + [MakeRow(b, bill, credited, ps[n], Sum(ps, SlipAmount()))]
  }

  function RowsFor(b: Books, k: Id): seq<RegisterRow>
  {
    if k in BillsById(b) then Running(b, BillsById(b)[k], CreditedOn(b)(k), SortBy(PaymentsOn(b, k), SlipOrder())) else []
  }

  function RowsOver(b: Books, ks: seq<Id>): seq<RegisterRow>
  {
    if |ks| == 0 then [] else RowsOver(b, ks[..|ks| - 1]) + RowsFor(b, ks[|ks| - 1])
  }

  function RegisterRows(b: Books): seq<RegisterRow> { RowsOver(b, GroupKeys(Registered(b), SlipBill())) }

  function RowAmount(): RegisterRow -> int { (r: RegisterRow) => r.amount }

  function Via(c: Channel): RegisterRow -> int
  {
    (r: RegisterRow) => if ChannelOf(r.paymentMethod) == c then r.amount else 0
  }

  function LatestDate(rows: seq<RegisterRow>): Option<Date>
  {
    if |rows| == 0 then None
    else
      var best := LatestDate(rows[..|rows| - 1]);
      if best.None? || rows[|rows| - 1].paidOn > best.value then Some(rows[|rows| - 1].paidOn) else best
  }

  function RowOrder(): RegisterRow -> Key { (r: RegisterRow) => By(r.paidOn, ByText(r.number, ByText(r.paymentId, End))) }

  function Reversed<T>(xs: seq<T>): seq<T> { seq(|xs|, i requires 0 <= i < |xs| => xs[|xs| - 1 - i]) }

  /** `sort(key=..., reverse=True)`, which keeps the order of equal keys. */
  function NewestFirst(rows: seq<RegisterRow>): seq<RegisterRow> { Reversed(SortBy(Reversed(rows), RowOrder())) }

  function Suppliers(rows: seq<RegisterRow>): set<Id> { set r | r in rows :: r.supplierId }

  function Register(b: Books): RegisterReport
  {
    var rows := RegisterRows(b);
    RegisterReport(|rows|, |Suppliers(rows)|, Sum(rows, RowAmount()), Sum(rows, Via(BankTransfer)), Sum(rows, Via(Cash)),
                   Sum(rows, Via(Upi)), Sum(rows, Via(Other)), LatestDate(rows), NewestFirst(rows))
  }

  // ---- the loops ----

  datatype PaymentGroup = PaymentGroup(invoiceId: Id, payments: seq<SupplierPayment>)

  function EmptyGroup(): Id -> PaymentGroup { (k: Id) => PaymentGroup(k, []) }

  function AppendPayment(): (PaymentGroup, SupplierPayment) -> PaymentGroup
  {
    (g: PaymentGroup, p: SupplierPayment) => PaymentGroup(g.invoiceId, g.payments + [p])
  }

  lemma {:induction false} GroupIsFilter(xs: seq<SupplierPayment>, k: Id)
    ensures GroupFold(xs, SlipBill(), EmptyGroup(), AppendPayment(), k) == PaymentGroup(k, FilterMap(xs, IsOn(k), Whole()))
  {
    if |xs| > 0 { GroupIsFilter(xs[..|xs| - 1], k); }
  }

  /** The inner loop over one invoice's payments. */
  method RunBalance(b: Books, bill: PurchaseInvoice, credited: int,
      ps: seq<SupplierPayment>) returns (rows: seq<RegisterRow>)
    ensures rows == Running(b, bill, credited, ps)
  {
    hide Sum;
    var paid := 0;
    rows := [];
    SumEmpty(ps[..0], SlipAmount());
    for i := 0 to |ps|
      invariant rows == Running(b, bill, credited, ps[..i]) && paid == Sum(ps[..i], SlipAmount())
    {
      SumPrefix(ps, i, SlipAmount());
      assert ps[..i + 1][..i] == ps[..i];
      paid := paid + ps[i].amount;
      rows := rows + [MakeRow(b, bill, credited, ps[i], paid)];
    }
    assert ps[..|ps|] == ps;
  }

  method RegisterAll(b: Books) returns (rows: seq<RegisterRow>)
    ensures rows == RegisterRows(b)
  {
    hide Sum, FilterMap, GroupKeys, GroupFold, SortBy, Rebuild, CreditedOn, PaidOn, Running;
    var mine := Select(b.invoices, AtBranch(b));
    var bills := Index(mine, InvoiceId());
    var credited, _ := InvoiceTotals(b);
    var xs := Select(b.payments, RegistersIn(b, bills));
    var groups := GroupRecords(xs, SlipBill(), EmptyGroup(), AppendPayment());
    ghost var ks := GroupKeys(xs, SlipBill());
    assert bills == BillsById(b) && xs == Registered(b);
    RegisteredHaveBills(b);
    rows := [];
    for i := 0 to |groups|
      invariant rows == RowsOver(b, ks[..i])
    {
      var k := groups[i].invoiceId;
      GroupIsFilter(xs, ks[i]);
      assert groups[i] == GroupFold(xs, SlipBill(), EmptyGroup(), AppendPayment(), ks[i]);
      assert ks[..i + 1][..i] == ks[..i];
      assert ks[i] in ks;
      var more := RunBalance(b, bills[k], Lookup(credited, k), SortBy(groups[i].payments, SlipOrder()));
      rows := rows + more;
    }
    assert ks[..|groups|] == ks;
  }

  lemma RegisteredHaveBills(b: Books)
    ensures forall k :: k in GroupKeys(Registered(b), SlipBill()) ==> k in BillsById(b)
  {
    hide FilterMap, BillsById;
    var xs := Registered(b);
    forall k | k in GroupKeys(xs, SlipBill()) ensures k in BillsById(b) {
      var i :| 0 <= i < |xs| && SlipBill()(xs[i]) == k;
      FilterMapMember(b.payments, Registers(b), Whole(), xs[i]);
    }
  }

  method LatestOf(rows: seq<RegisterRow>) returns (latest: Option<Date>)
    ensures latest == LatestDate(rows)
  {
    latest := None;
    for i := 0 to |rows|
      invariant latest == LatestDate(rows[..i])
    {
      assert rows[..i + 1][..i] == rows[..i];
      if latest.None? || rows[i].paidOn > latest.value { latest := Some(rows[i].paidOn); }
    }
    assert rows[..|rows|] == rows;
  }

  method BuildSupplierPaymentRegister(b: Books) returns (report: RegisterReport)
    ensures report == Register(b)
  {
    hide Sum, RegisterRows, LatestDate, NewestFirst, Suppliers;
    var rows := RegisterAll(b);
    var paid := Total(rows, RowAmount());
    var bank := Total(rows, Via(BankTransfer));
    var cash := Total(rows, Via(Cash));
    var upi := Total(rows, Via(Upi));
    var other := Total(rows, Via(Other));
    var latest := LatestOf(rows);
    report := RegisterReport(|rows|, |Suppliers(rows)|, paid, bank, cash, upi, other, latest, NewestFirst(rows));
  }

  // ---- what the register says ----

  lemma {:induction false} RunningAt(b: Books, bill: PurchaseInvoice, credited: int, ps: seq<SupplierPayment>, i: nat)
    requires i < |ps|
    ensures Running(b, bill, credited, ps)[i] == MakeRow(b, bill, credited, ps[i], Sum(ps[..i + 1], SlipAmount()))
  {
    var n := |ps| - 1;
    if i < n {
      RunningAt(b, bill, credited, ps[..n], i);
      assert ps[..n][..i + 1] == ps[..i + 1];
    } else {
      assert ps[..n + 1] == ps;
    }
  }

  /** Along the payments of an invoice the remaining amount never rises. */
  lemma {:induction false} BalanceNeverRises(b: Books, bill: PurchaseInvoice, credited: int, ps: seq<SupplierPayment>,
                                             i: nat, j: nat)
    requires i <= j < |ps| && forall p :: p in ps ==> p.amount >= 0
    ensures Running(b, bill, credited, ps)[j].remaining <= Running(b, bill, credited, ps)[i].remaining
  {
    hide Sum, Running;
    RunningAt(b, bill, credited, ps, i);
    RunningAt(b, bill, credited, ps, j);
    var more := ps[i + 1..j + 1];
    assert ps[..j + 1] == ps[..i + 1] + more;
    SumConcat(ps[..i + 1], more, SlipAmount());
    SumNonNegative(more, SlipAmount());
  }

  /** Invoices have ids of their own, and every payment is filed at its invoice's branch. */
  ghost predicate WellFiled(b: Books)
  {
    && NoDuplicates(Map(b.invoices, InvoiceId()))
    && forall p, v :: p in b.payments && v in b.invoices && p.invoiceId == v.id ==> p.branchId == v.branchId
  }

  lemma {:induction false} SelectKeepsDistinct(xs: seq<PurchaseInvoice>, keep: PurchaseInvoice -> bool)
    requires NoDuplicates(Map(xs, InvoiceId()))
    ensures NoDuplicates(Map(FilterMap(xs, keep, Whole()), InvoiceId()))
    ensures forall v :: v in FilterMap(xs, keep, Whole()) <==> v in xs && keep(v)
  {
    if |xs| > 0 {
      var n := |xs| - 1;
      var ids, front := Map(xs, InvoiceId()), Map(xs[..n], InvoiceId());
      assert forall i :: 0 <= i < n ==> front[i] == ids[i];
      SelectKeepsDistinct(xs[..n], keep);
      var ys := FilterMap(xs[..n], keep, Whole());
      forall v | v in ys ensures v.id != xs[n].id {
        var i :| 0 <= i < n && xs[..n][i] == v;
        assert ids[i] == v.id && ids[n] == xs[n].id;
      }
      assert forall v :: v in xs <==> v in xs[..n] || v == xs[n];
      var zs := FilterMap(xs, keep, Whole());
      forall i, j | 0 <= i < j < |zs| ensures Map(zs, InvoiceId())[i] != Map(zs, InvoiceId())[j] {
        assert zs[i] == ys[i] && ys[i] in ys;
        if j < |ys| { assert Map(ys, InvoiceId())[i] != Map(ys, InvoiceId())[j]; }
      }
    }
  }

  function Ids(b: Books): seq<Id> { Map(BranchInvoices(b), InvoiceId()) }

  /** The dictionary holds every invoice of the branch under its id, and nothing else. */
  lemma BillsAreIndexed(b: Books)
    requires WellFiled(b)
    ensures NoDuplicates(Ids(b))
    ensures forall k :: k in BillsById(b) <==> k in Ids(b)
    ensures forall v :: v in b.invoices && v.branchId == b.branchId ==> v.id in BillsById(b) && BillsById(b)[v.id] == v
    ensures forall k :: k in BillsById(b) ==>
        BillsById(b)[k] in b.invoices && BillsById(b)[k].id == k && BillsById(b)[k].branchId == b.branchId
  {
    hide FilterMap, Rebuild;
    var mine, ids := BranchInvoices(b), Ids(b);
    SelectKeepsDistinct(b.invoices, AtBranch(b));
    RebuildDistinct(mine, InvoiceId(), Whole(), ids);
    forall k ensures k in BillsById(b) <==> k in ids {
      if k in ids { var i :| 0 <= i < |ids| && ids[i] == k; }
    }
    forall k | k in BillsById(b)
      ensures BillsById(b)[k] in b.invoices && BillsById(b)[k].id == k && BillsById(b)[k].branchId == b.branchId
    {
      var i :| 0 <= i < |ids| && ids[i] == k;
      assert BillsById(b)[ids[i]] == mine[i] && mine[i] in mine;
    }
    forall v | v in b.invoices && v.branchId == b.branchId ensures v.id in BillsById(b) && BillsById(b)[v.id] == v {
      assert v in mine;
      var i :| 0 <= i < |mine| && mine[i] == v;
      assert ids[i] == v.id;
    }
  }

  lemma PaidOnInvoice(b: Books, k: Id)
    requires WellFiled(b) && k in BillsById(b)
    ensures Sum(SortBy(PaymentsOn(b, k), SlipOrder()), SlipAmount()) == PaidOn(b)(k)
  {
    hide Sum, FilterMap, BillsById, SortBy;
    BillsAreIndexed(b);
    SumPermuted(PaymentsOn(b, k), SortBy(PaymentsOn(b, k), SlipOrder()), SlipAmount());
    FilterMapSum(Registered(b), IsOn(k), Whole(), SlipAmount(), Restrict(SlipAmount(), SlipBill(), k));
    forall i | 0 <= i < |b.payments| && b.payments[i].invoiceId == k ensures Registers(b)(b.payments[i]) {
      assert b.payments[i] in b.payments && BillsById(b)[k] in b.invoices;
    }
    FilterMapSum(b.payments, Registers(b), Whole(), Restrict(SlipAmount(), SlipBill(), k),
        Restrict(SlipAmount(), SlipBill(), k));
  }

  /** After the last payment of an invoice the register shows what the payables report shows. */
  lemma RegisterEndsAtPayables(b: Books, v: PurchaseInvoice)
    requires WellFiled(b) && v in b.invoices && v.branchId == b.branchId && |RowsFor(b, v.id)| > 0
    ensures var rows := RowsFor(b, v.id); rows[|rows| - 1].remaining == PayableRow(b)(v).outstanding == OpenOf(b)(v)
  {
    hide Sum, FilterMap, BillsById, SortBy, CreditedOn, PaidOn, Running;
    BillsAreIndexed(b);
    var ps := SortBy(PaymentsOn(b, v.id), SlipOrder());
    RunningAt(b, v, CreditedOn(b)(v.id), ps, |ps| - 1);
    assert ps[..|ps|] == ps;
    PaidOnInvoice(b, v.id);
    OpenIs(b, v);
  }

  function Either(c: Channel, d: Channel): RegisterRow -> int { (r: RegisterRow) => Via(c)(r) + Via(d)(r) }

  /** The four method totals split the paid total. */
  lemma ChannelsSplitPaid(b: Books)
    ensures var r := Register(b); r.bankTransfer + r.cash + r.upi + r.other == r.paid
  {
    hide Sum, RegisterRows;
    var rows := RegisterRows(b);
    SumAdd(rows, Via(BankTransfer), Via(Cash), Either(BankTransfer, Cash));
    SumAdd(rows, Via(Upi), Via(Other), Either(Upi, Other));
    SumAdd(rows, Either(BankTransfer, Cash), Either(Upi, Other), RowAmount());
  }

  lemma {:induction false} RunningAmount(b: Books, bill: PurchaseInvoice, credited: int, ps: seq<SupplierPayment>)
    ensures Sum(Running(b, bill, credited, ps), RowAmount()) == Sum(ps, SlipAmount())
  {
    if |ps| > 0 {
      var n := |ps| - 1;
      RunningAmount(b, bill, credited, ps[..n]);
      SumSnoc(Running(b, bill, credited, ps[..n]), MakeRow(b, bill, credited, ps[n], Sum(ps, SlipAmount())), RowAmount());
    }
  }

  lemma {:induction false} RowsOverAmount(b: Books, ks: seq<Id>)
    requires WellFiled(b) && forall k :: k in ks ==> k in BillsById(b)
    ensures Sum(RowsOver(b, ks), RowAmount()) == Sum(ks, PaidOn(b))
  {
    hide FilterMap, BillsById, SortBy, CreditedOn, PaidOn, Running;
    if |ks| > 0 {
      var n := |ks| - 1;
      RowsOverAmount(b, ks[..n]);
      SumConcat(RowsOver(b, ks[..n]), RowsFor(b, ks[n]), RowAmount());
      RunningAmount(b, BillsById(b)[ks[n]], CreditedOn(b)(ks[n]), SortBy(PaymentsOn(b, ks[n]), SlipOrder()));
      PaidOnInvoice(b, ks[n]);
    }
  }

  /** The register's paid total is the payables report's. */
  lemma RegisterMatchesPayables(b: Books)
    requires WellFiled(b)
    ensures Register(b).paid == Payables(b).paid
  {
    hide Sum, FilterMap, BillsById, GroupKeys, CreditedOn, PaidOn;
    var ks := GroupKeys(Registered(b), SlipBill());
    RegisteredHaveBills(b);
    BillsAreIndexed(b);
    RowsOverAmount(b, ks);
    PaidOverIds(b);
    KeyedSum(ks, b.payments, SlipBill(), SlipAmount());
    KeyedSum(Ids(b), b.payments, SlipBill(), SlipAmount());
    forall i | 0 <= i < |b.payments|
      ensures Within(SlipAmount(), SlipBill(), ks)(b.payments[i]) == Within(SlipAmount(), SlipBill(), Ids(b))(b.payments[i])
    {
      PaidKeyIsRegistered(b, b.payments[i]);
    }
    SumSame(b.payments, Within(SlipAmount(), SlipBill(), ks), Within(SlipAmount(), SlipBill(), Ids(b)));
    PaidOnIs(b);
    SumSame(ks, PaidOn(b), GroupTotal(b.payments, SlipBill(), SlipAmount()));
    SumSame(Ids(b), PaidOn(b), GroupTotal(b.payments, SlipBill(), SlipAmount()));
  }

  lemma PaidOnIs(b: Books)
    ensures PaidOn(b) == GroupTotal(b.payments, SlipBill(), SlipAmount())
  {
  }

  lemma PaidKeyIsRegistered(b: Books, p: SupplierPayment)
    requires WellFiled(b) && p in b.payments
    ensures p.invoiceId in GroupKeys(Registered(b), SlipBill()) <==> p.invoiceId in Ids(b)
  {
    hide FilterMap, BillsById, GroupKeys;
    BillsAreIndexed(b);
    RegisteredHaveBills(b);
    if p.invoiceId in Ids(b) {
      assert BillsById(b)[p.invoiceId] in b.invoices && Registers(b)(p);
      var i :| 0 <= i < |b.payments| && b.payments[i] == p;
      FilterMapMember(b.payments, Registers(b), Whole(), p);
      var j :| 0 <= j < |Registered(b)| && Registered(b)[j] == p;
      assert SlipBill()(Registered(b)[j]) in GroupKeys(Registered(b), SlipBill());
    }
  }

  lemma PaidOverIds(b: Books)
    ensures Payables(b).paid == Sum(Ids(b), PaidOn(b))
  {
    hide Sum, CreditedOn, PaidOn;
    forall v { OpenIs(b, v); }
    FilterMapSum(b.invoices, AtBranch(b), PayableRow(b), RowPaid(), PaidAt(b));
    FilterMapSum(b.invoices, AtBranch(b), Whole(), PaidOf(b), PaidAt(b));
    MapSum(BranchInvoices(b), InvoiceId(), PaidOn(b), PaidOf(b));
  }

  function PaidOf(b: Books): PurchaseInvoice -> int { (v: PurchaseInvoice) => PaidOn(b)(v.id) }

  function PaidAt(b: Books): PurchaseInvoice -> int
  {
    (v: PurchaseInvoice) => if v.branchId == b.branchId then PaidOn(b)(v.id) else 0
  }
}
