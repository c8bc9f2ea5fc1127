/** Customer reports, recomputed from the stored sales (customer_reporting.py). */
module CustomerReports {
  import opened Folds
  import opened Inventory
  import opened Entities
  import opened Ordering
  import opened StateModel
  import opened TillInvariants

  /** The collections a customer report receives; names are taken from the customer record or else from the sale. */
  datatype Shop = Shop(
    customerNames: map<Id, string>,
    saleNames: map<Id, string>,
    sales: seq<Sale>,
    invoices: map<Id, Invoice>,
    saleReturns: seq<CustomerReturnNote>,
    creditNotes: map<Id, CreditNote>,
    exchanges: seq<Exchange>)

  // ---- one customer's history ----

  datatype History =
    History(visitCount: int, lifetimeValue: int, salesCount: nat, salesTotal: int, returnCount: nat, creditTotal: int,
            exchangeCount: nat)

  function Buys(customerId: Id): Sale -> bool { (x: Sale) => x.customerId == Some(customerId) }
  function SaleId(): Sale -> Id { (x: Sale) => x.id }
  function BilledFor(shop: Shop): Sale -> int { (x: Sale) => InvoiceTotal(shop.invoices, x.invoiceId) }
  function Bought(shop: Shop, customerId: Id): seq<Sale> { FilterMap(shop.sales, Buys(customerId), Whole()) }
  function BoughtIds(shop: Shop, customerId: Id): set<Id> { set x | x in Bought(shop, customerId) :: x.id }

  function Returns(ids: set<Id>): CustomerReturnNote -> bool { (n: CustomerReturnNote) => n.saleId in ids }
  function Exchanges(ids: set<Id>): Exchange -> bool { (x: Exchange) => x.saleId in ids }

  function CreditTotal(notes: map<Id, CreditNote>, id: Id): int { if id in notes then notes[id].grandTotal else 0 }

  function CreditedBy(shop: Shop): CustomerReturnNote -> int
  {
    (n: CustomerReturnNote) => CreditTotal(shop.creditNotes, n.creditNoteId)
  }

  /** Every look-up by subscript finds its document; otherwise the report raises a `KeyError`. */
  predicate Answers(shop: Shop, customerId: Id)
  {
    && (forall x :: x in Bought(shop, customerId) ==> x.invoiceId in shop.invoices)
    && (forall n :: n in shop.saleReturns && n.saleId in BoughtIds(shop, customerId) ==> n.creditNoteId in shop.creditNotes)
  }

  function HistoryReport(shop: Shop, customerId: Id, customer: Customer): Option<History>
  {
    var mine, ids := Bought(shop, customerId), BoughtIds(shop, customerId);
    var back := FilterMap(shop.saleReturns, Returns(ids), Whole());
    if !Answers(shop, customerId) then None
    else Some(History(customer.visitCount, customer.lifetimeValue, |mine|, Sum(mine, BilledFor(shop)), |back|,
                      Sum(back, CreditedBy(shop)), |FilterMap(shop.exchanges, Exchanges(ids), Whole())|))
  }

  /** Over faithful documents every look-up succeeds. */
  lemma LookupsSucceed(sell: Selling, shop: Shop, ks: seq<Id>, js: seq<Id>, customerId: Id)
    requires TillFaithful(sell) && shop.invoices == sell.invoices && shop.creditNotes == sell.creditNotes
    requires Listing(sell.sales, ks, shop.sales) && Listing(sell.saleReturns, js, shop.saleReturns)
    ensures Answers(shop, customerId)
  {
    hide FilterMap, DrawerOk;
    forall x | x in Bought(shop, customerId) ensures x.invoiceId in shop.invoices {
      FilterMapMember(shop.sales, Buys(customerId), Whole(), x);
      var i :| 0 <= i < |shop.sales| && shop.sales[i] == x;
      assert sell.sales[ks[i]] == x;
    }
    forall n | n in shop.saleReturns ensures n.creditNoteId in shop.creditNotes {
      var i :| 0 <= i < |shop.saleReturns| && shop.saleReturns[i] == n;
      assert sell.saleReturns[js[i]] == n;
    }
  }

  /**
   * In every consistent state the history report of a customer succeeds; where every stored sale was counted, the
   * totals cached on the customer are the ones it recomputes from scratch.
   */
  lemma HistoryMatchesCache(sell: Selling, shop: Shop, ks: seq<Id>, js: seq<Id>, customerId: Id)
    requires TillFaithful(sell) && CustomersFaithful(sell) && customerId in sell.customers
    requires shop.invoices == sell.invoices && shop.creditNotes == sell.creditNotes
    requires Listing(sell.sales, ks, shop.sales) && Listing(sell.saleReturns, js, shop.saleReturns)
    ensures var h := HistoryReport(shop, customerId, sell.customers[customerId]);
            && h.Some?
            && h.value.salesCount == h.value.visitCount == sell.customers[customerId].visitCount
            && h.value.salesTotal == h.value.lifetimeValue == sell.customers[customerId].lifetimeValue
  {
    hide Sum, SumMap, FilterMap, Answers, BoughtIds;
    var mine := Bought(shop, customerId);
    assert CustomerOk(sell, customerId);
    LookupsSucceed(sell, shop, ks, js, customerId);
    CountIsLength(mine);
    FilterMapSum(shop.sales, Buys(customerId), Whole(), One(), VisitOf(customerId));
    FilterMapSum(shop.sales, Buys(customerId), Whole(), BilledFor(shop), SpentBy(customerId, sell.invoices));
    ListingSum(sell.sales, ks, shop.sales, VisitOf(customerId));
    ListingSum(sell.sales, ks, shop.sales, SpentBy(customerId, sell.invoices));
  }

  // ---- the customers of a branch ----

  datatype CustomerRow =
    CustomerRow(customerId: Id, name: string, salesCount: nat, salesTotal: int, lastNumber: Option<string>)

  datatype ActivityRow = ActivityRow(customerId: Id, name: string, returnCount: nat, creditTotal: int, exchangeCount: nat)

  function Given(names: map<Id, string>, id: Id): string { if id in names then names[id] else "" }

  /** `customer.get("name") or sale.get("customer_name") or customer_id`. */
  function NameOn(shop: Shop, x: Sale): string
  {
    if x.customerId.None? then ""
    else if Given(shop.customerNames, x.customerId.value) != "" then Given(shop.customerNames, x.customerId.value)
    else if Given(shop.saleNames, x.id) != "" then Given(shop.saleNames, x.id)
    else x.customerId.value
  }

  datatype BranchReport =
    BranchReport(customerCount: nat, repeatCount: int, anonymousCount: int, anonymousTotal: int, top: seq<CustomerRow>,
                 activity: seq<ActivityRow>)

  function SoldAt(branchId: Id): Sale -> bool { (x: Sale) => x.branchId == branchId }
  function NamedAt(branchId: Id): Sale -> bool { (x: Sale) => x.branchId == branchId && x.customerId.Some? }

  function NamedSales(shop: Shop, branchId: Id): seq<Sale> { FilterMap(shop.sales, NamedAt(branchId), Whole()) }

  function Anonymous(branchId: Id): Sale -> int
  {
    (x: Sale) => if x.branchId == branchId && x.customerId.None? then 1 else 0
  }

  function AnonymousAmount(shop: Shop, branchId: Id): Sale -> int
  {
    (x: Sale) => if x.branchId == branchId && x.customerId.None? then InvoiceTotal(shop.invoices, x.invoiceId) else 0
  }

  function CustomerOf(): Sale -> Id { (x: Sale) => if x.customerId.Some? then x.customerId.value else "" }

  function StartRow(): Id -> CustomerRow { (k: Id) => CustomerRow(k, "", 0, 0, None) }

  function NumberOn(invoices: map<Id, Invoice>, id: Id): Option<string>
  {
    if id in invoices then Some(invoices[id].number) else None
  }

  /** The first sale of a customer names the record. */
  function AddSale(shop: Shop): (CustomerRow, Sale) -> CustomerRow
  {
    (r: CustomerRow, x: Sale) =>
      CustomerRow(r.customerId, if r.salesCount == 0 then NameOn(shop, x) else r.name, r.salesCount + 1,
                  r.salesTotal + InvoiceTotal(shop.invoices, x.invoiceId),
                  NumberOn(shop.invoices, x.invoiceId))
  }

  function CustomerRows(shop: Shop, branchId: Id): seq<CustomerRow>
  {
    Groups(NamedSales(shop, branchId), CustomerOf(), StartRow(), AddSale(shop))
  }

  function RowCount(): CustomerRow -> int { (r: CustomerRow) => r.salesCount }
  function RowTotal(): CustomerRow -> int { (r: CustomerRow) => r.salesTotal }
  function Repeats(): CustomerRow -> int { (r: CustomerRow) => if r.salesCount > 1 then 1 else 0 }
  function TopKey(): CustomerRow -> Key
  {
    (r: CustomerRow) => By(-r.salesTotal, By(-(r.salesCount as int), ByText(r.name, End)))
  }

  /** What a return or an exchange adds to the activity of the sale's customer. */
  datatype Activity = Activity(customerId: Id, name: string, returned: nat, credit: int, exchanged: nat)

  function SalesById(shop: Shop, branchId: Id): map<Id, Sale>
  {
    Rebuild(FilterMap(shop.sales, SoldAt(branchId), Whole()), SaleId(), Whole())
  }

  predicate ToNamed(sales: map<Id, Sale>, saleId: Id) { saleId in sales && sales[saleId].customerId.Some? }

  function BuyerOf(sales: map<Id, Sale>, saleId: Id): Id
  {
    if ToNamed(sales, saleId) then sales[saleId].customerId.value else ""
  }

  function BuyerName(shop: Shop, sales: map<Id, Sale>, saleId: Id): string
  {
    if ToNamed(sales, saleId) then NameOn(shop, sales[saleId]) else ""
  }

  function Counts(sales: map<Id, Sale>): CustomerReturnNote -> bool { (n: CustomerReturnNote) => ToNamed(sales, n.saleId) }

  function Swaps(sales: map<Id, Sale>, branchId: Id): Exchange -> bool
  {
    (x: Exchange) => x.branchId == branchId && ToNamed(sales, x.saleId)
  }

  function ReturnActivity(shop: Shop, sales: map<Id, Sale>): CustomerReturnNote -> Activity
  {
    (n: CustomerReturnNote) =>
      Activity(BuyerOf(sales, n.saleId), BuyerName(shop, sales, n.saleId), 1,
               CreditTotal(shop.creditNotes, n.creditNoteId), 0)
  }

  function ExchangeActivity(shop: Shop, sales: map<Id, Sale>): Exchange -> Activity
  {
    (x: Exchange) => Activity(BuyerOf(sales, x.saleId), BuyerName(shop, sales, x.saleId), 0, 0, 1)
  }

  function Activities(shop: Shop, branchId: Id): seq<Activity>
  {
    var sales := SalesById(shop, branchId);
    FilterMap(shop.saleReturns, Counts(sales), ReturnActivity(shop, sales))
    + FilterMap(shop.exchanges, Swaps(sales, branchId), ExchangeActivity(shop, sales))
  }

  function ActorOf(): Activity -> Id { (a: Activity) => a.customerId }
  function StartActivity(): Id -> ActivityRow { (k: Id) => ActivityRow(k, "", 0, 0, 0) }

  function AddActivity(): (ActivityRow, Activity) -> ActivityRow
  {
    (r: ActivityRow, a: Activity) =>
      ActivityRow(r.customerId, if r.returnCount == 0 && r.exchangeCount == 0 then a.name else r.name,
                  r.returnCount + a.returned, r.creditTotal + a.credit, r.exchangeCount + a.exchanged)
  }

  function ActivityKey(): ActivityRow -> Key
  {
    (r: ActivityRow) => By(-r.creditTotal, By(-(r.exchangeCount as int), ByText(r.name, End)))
  }

  function BranchCustomers(shop: Shop, branchId: Id): BranchReport
  {
    var rows := CustomerRows(shop, branchId);
    BranchReport(|rows|, Sum(rows, Repeats()), Sum(shop.sales, Anonymous(branchId)),
        Sum(shop.sales, AnonymousAmount(shop, branchId)), SortBy(rows, TopKey()),
                 SortBy(Groups(Activities(shop, branchId), ActorOf(), StartActivity(), AddActivity()), ActivityKey()))
  }

  method CountAnonymous(shop: Shop, sales: seq<Sale>, branchId: Id) returns (count: int, total: int)
    ensures count == Sum(sales, Anonymous(branchId)) && total == Sum(sales, AnonymousAmount(shop, branchId))
  {
    hide Sum;
    count, total := 0, 0;
    SumEmpty(sales[..0], Anonymous(branchId));
    SumEmpty(sales[..0], AnonymousAmount(shop, branchId));
    for i := 0 to |sales|
      invariant count == Sum(sales[..i], Anonymous(branchId)) && total == Sum(sales[..i], AnonymousAmount(shop, branchId))
    {
      var x := sales[i];
      SumPrefix(sales, i, Anonymous(branchId));
      SumPrefix(sales, i, AnonymousAmount(shop, branchId));
      if x.branchId == branchId && x.customerId.None? {
        count, total := count + 1, total + InvoiceTotal(shop.invoices, x.invoiceId);
      }
    }
    assert sales[..|sales|] == sales;
  }

  method CollectActivities(shop: Shop, branchId: Id, sales: map<Id, Sale>) returns (found: seq<Activity>)
    requires sales == SalesById(shop, branchId)
    ensures found == Activities(shop, branchId)
  {
    hide FilterMap, SalesById;
    found := [];
    FilterMapEmpty(shop.saleReturns[..0], Counts(sales), ReturnActivity(shop, sales));
    for i := 0 to |shop.saleReturns|
      invariant found == FilterMap(shop.saleReturns[..i], Counts(sales), ReturnActivity(shop, sales))
    {
      var n := shop.saleReturns[i];
      FilterMapPrefix(shop.saleReturns, i, Counts(sales), ReturnActivity(shop, sales));
      if ToNamed(sales, n.saleId) {
        var sale := sales[n.saleId];
        found := found + [Activity(sale.customerId.value, NameOn(shop, sale), 1,
            CreditTotal(shop.creditNotes, n.creditNoteId), 0)];
      }
    }
    assert shop.saleReturns[..|shop.saleReturns|] == shop.saleReturns;
    ghost var returned := found;
    FilterMapEmpty(shop.exchanges[..0], Swaps(sales, branchId), ExchangeActivity(shop, sales));
    for i := 0 to |shop.exchanges|
      invariant found == returned + FilterMap(shop.exchanges[..i], Swaps(sales, branchId), ExchangeActivity(shop, sales))
    {
      var x := shop.exchanges[i];
      FilterMapPrefix(shop.exchanges, i, Swaps(sales, branchId), ExchangeActivity(shop, sales));
      if x.branchId == branchId && ToNamed(sales, x.saleId) {
        var sale := sales[x.saleId];
        found := found + [Activity(sale.customerId.value, NameOn(shop, sale), 0, 0, 1)];
      }
    }
    assert shop.exchanges[..|shop.exchanges|] == shop.exchanges;
  }

  method BuildBranchCustomerReport(shop: Shop, branchId: Id) returns (report: BranchReport)
    ensures report == BranchCustomers(shop, branchId)
  {
    hide Sum, SortBy, Groups, FilterMap, Rebuild, Activities;
    var mine := Select(shop.sales, SoldAt(branchId));
    var byId := Index(mine, SaleId());
    var anonymousCount, anonymousTotal := CountAnonymous(shop, shop.sales, branchId);
    var named := Select(shop.sales, NamedAt(branchId));
    var rows := GroupRecords(named, CustomerOf(), StartRow(), AddSale(shop));
    var found := CollectActivities(shop, branchId, byId);
    var activity := GroupRecords(found, ActorOf(), StartActivity(), AddActivity());
    var repeats := Total(rows, Repeats());
    report := BranchReport(|rows|, repeats, anonymousCount, anonymousTotal, SortBy(rows, TopKey()),
        SortBy(activity, ActivityKey()));
  }

  function SoldOnce(branchId: Id): Sale -> int { (x: Sale) => if x.branchId == branchId then 1 else 0 }

  function BranchBilled(shop: Shop, branchId: Id): Sale -> int
  {
    (x: Sale) => if x.branchId == branchId then InvoiceTotal(shop.invoices, x.invoiceId) else 0
  }

  function NamedOnce(branchId: Id): Sale -> int
  {
    (x: Sale) => if x.branchId == branchId && x.customerId.Some? then 1 else 0
  }

  function NamedBilled(shop: Shop, branchId: Id): Sale -> int
  {
    (x: Sale) => if x.branchId == branchId && x.customerId.Some? then InvoiceTotal(shop.invoices, x.invoiceId) else 0
  }

  /** Named customers and anonymous sales split the branch's sales and its invoiced total. */
  lemma BranchTotalsSplit(shop: Shop, branchId: Id)
    ensures var r := BranchCustomers(shop, branchId);
            && Sum(r.top, RowTotal()) + r.anonymousTotal == Sum(shop.sales, BranchBilled(shop, branchId))
            && Sum(r.top, RowCount()) + r.anonymousCount == Sum(shop.sales, SoldOnce(branchId))
  {
    hide Sum, SortBy, Groups, FilterMap, Activities;
    var rows := CustomerRows(shop, branchId);
    SumPermuted(rows, SortBy(rows, TopKey()), RowTotal());
    SumPermuted(rows, SortBy(rows, TopKey()), RowCount());
    GroupsTotal(NamedSales(shop, branchId), CustomerOf(), StartRow(), AddSale(shop), RowTotal(), BilledFor(shop));
    GroupsTotal(NamedSales(shop, branchId), CustomerOf(), StartRow(), AddSale(shop), RowCount(), One());
    FilterMapSum(shop.sales, NamedAt(branchId), Whole(), BilledFor(shop), NamedBilled(shop, branchId));
    FilterMapSum(shop.sales, NamedAt(branchId), Whole(), One(), NamedOnce(branchId));
    SumAdd(shop.sales, NamedBilled(shop, branchId), AnonymousAmount(shop, branchId), BranchBilled(shop, branchId));
    SumAdd(shop.sales, NamedOnce(branchId), Anonymous(branchId), SoldOnce(branchId));
  }

  function CreditIn(): ActivityRow -> int { (r: ActivityRow) => r.creditTotal }
  function ActivityCredit(): Activity -> int { (a: Activity) => a.credit }
  function CountedCredit(shop: Shop, sales: map<Id, Sale>): CustomerReturnNote -> int
  {
    (n: CustomerReturnNote) => if ToNamed(sales, n.saleId) then CreditTotal(shop.creditNotes, n.creditNoteId) else 0
  }

  /** The activity rows account for every credit note of a named sale of the branch. */
  lemma ActivityCoversCredit(shop: Shop, branchId: Id)
    ensures Sum(BranchCustomers(shop, branchId).activity, CreditIn())
         == Sum(shop.saleReturns, CountedCredit(shop, SalesById(shop, branchId)))
  {
    hide Sum, SortBy, Groups, FilterMap, SalesById, CustomerRows;
    var sales := SalesById(shop, branchId);
    var rows := Groups(Activities(shop, branchId), ActorOf(), StartActivity(), AddActivity());
    var back := FilterMap(shop.saleReturns, Counts(sales), ReturnActivity(shop, sales));
    var swaps := FilterMap(shop.exchanges, Swaps(sales, branchId), ExchangeActivity(shop, sales));
    SumPermuted(rows, BranchCustomers(shop, branchId).activity, CreditIn());
    GroupsTotal(Activities(shop, branchId), ActorOf(), StartActivity(), AddActivity(), CreditIn(), ActivityCredit());
    SumConcat(back, swaps, ActivityCredit());
    FilterMapSum(shop.saleReturns, Counts(sales), ReturnActivity(shop, sales), ActivityCredit(),
        CountedCredit(shop, sales));
    forall i | 0 <= i < |swaps| ensures ActivityCredit()(swaps[i]) == 0 {
      FilterMapMember(shop.exchanges, Swaps(sales, branchId), ExchangeActivity(shop, sales), swaps[i]);
    }
    SumZero(swaps, ActivityCredit());
  }

  // ---- customer by customer ----

  /** One for a sale of the branch to the customer. */
  function BoughtAt(branchId: Id, k: Id): Sale -> int
  {
    (x: Sale) => if x.branchId == branchId && x.customerId == Some(k) then 1 else 0
  }

  function SpentAt(shop: Shop, branchId: Id, k: Id): Sale -> int
  {
    (x: Sale) => if x.branchId == branchId && x.customerId == Some(k) then InvoiceTotal(shop.invoices, x.invoiceId) else 0
  }

  function RowFor(shop: Shop, branchId: Id): Id -> CustomerRow
  {
    Grouped(NamedSales(shop, branchId), CustomerOf(), StartRow(), AddSale(shop))
  }

  /** A customer's row counts and adds up the customer's sales at the branch. */
  lemma CustomerRowIs(shop: Shop, branchId: Id, k: Id)
    ensures var r := RowFor(shop, branchId)(k);
            && r.salesCount == Sum(shop.sales, BoughtAt(branchId, k))
            && r.salesTotal == Sum(shop.sales, SpentAt(shop, branchId, k))
  {
    hide Sum, FilterMap;
    var named := NamedSales(shop, branchId);
    GroupedField(named, CustomerOf(), StartRow(), AddSale(shop), RowCount(), One(), k);
    GroupedField(named, CustomerOf(), StartRow(), AddSale(shop), RowTotal(), BilledFor(shop), k);
    FilterMapSum(shop.sales, NamedAt(branchId), Whole(), Restrict(One(), CustomerOf(), k), BoughtAt(branchId, k));
    FilterMapSum(shop.sales, NamedAt(branchId), Whole(), Restrict(BilledFor(shop), CustomerOf(), k),
                 SpentAt(shop, branchId, k));
  }

  /** The customers with a sale at the branch. */
  function CustomersAt(shop: Shop, branchId: Id): seq<Id> { GroupKeys(NamedSales(shop, branchId), CustomerOf()) }

  function CameBack(shop: Shop, branchId: Id): Id -> int
  {
    (k: Id) => if Sum(shop.sales, BoughtAt(branchId, k)) >= 2 then 1 else 0
  }

  /** A repeat customer is one with at least two sales at the branch. */
  lemma RepeatCustomers(shop: Shop, branchId: Id)
    ensures var r := BranchCustomers(shop, branchId);
            && r.customerCount == |CustomersAt(shop, branchId)|
            && r.repeatCount == Sum(CustomersAt(shop, branchId), CameBack(shop, branchId))
  {
    hide Sum, FilterMap, GroupFold, GroupKeys, SortBy, Activities;
    var ks := CustomersAt(shop, branchId);
    forall k ensures Repeats()(RowFor(shop, branchId)(k)) == CameBack(shop, branchId)(k) {
      CustomerRowIs(shop, branchId, k);
    }
    MapSum(ks, RowFor(shop, branchId), Repeats(), CameBack(shop, branchId));
  }

  /** The sale is one of the customer's. */
  predicate SoldTo(shop: Shop, customerId: Id, saleId: Id)
  {
    exists x :: x in shop.sales && x.id == saleId && x.customerId == Some(customerId)
  }

  function ReturnTo(shop: Shop, k: Id): CustomerReturnNote -> int
  {
    (n: CustomerReturnNote) => if SoldTo(shop, k, n.saleId) then 1 else 0
  }

  function CreditTo(shop: Shop, k: Id): CustomerReturnNote -> int
  {
    (n: CustomerReturnNote) => if SoldTo(shop, k, n.saleId) then CreditTotal(shop.creditNotes, n.creditNoteId) else 0
  }

  function ExchangeTo(shop: Shop, k: Id): Exchange -> int
  {
    (x: Exchange) => if SoldTo(shop, k, x.saleId) then 1 else 0
  }

  lemma BoughtMeans(shop: Shop, k: Id, saleId: Id)
    ensures saleId in BoughtIds(shop, k) <==> SoldTo(shop, k, saleId)
  {
    hide FilterMap;
    forall x ensures x in Bought(shop, k) <==> x in shop.sales && x.customerId == Some(k) {
      FilterMapMember(shop.sales, Buys(k), Whole(), x);
    }
  }

  /** The history counts the returns and exchanges of the customer's sales, and adds up the credit of the returns. */
  lemma HistoryCounts(shop: Shop, k: Id, customer: Customer)
    requires HistoryReport(shop, k, customer).Some?
    ensures var h := HistoryReport(shop, k, customer).value;
            && h.returnCount == Sum(shop.saleReturns, ReturnTo(shop, k))
            && h.creditTotal == Sum(shop.saleReturns, CreditTo(shop, k))
            && h.exchangeCount == Sum(shop.exchanges, ExchangeTo(shop, k))
  {
    hide Sum, FilterMap, SoldTo, BoughtIds, Answers;
    var ids := BoughtIds(shop, k);
    forall id { BoughtMeans(shop, k, id); }
    CountIsLength(FilterMap(shop.saleReturns, Returns(ids), Whole()));
    CountIsLength(FilterMap(shop.exchanges, Exchanges(ids), Whole()));
    FilterMapSum(shop.saleReturns, Returns(ids), Whole(), One(), ReturnTo(shop, k));
    FilterMapSum(shop.saleReturns, Returns(ids), Whole(), CreditedBy(shop), CreditTo(shop, k));
    FilterMapSum(shop.exchanges, Exchanges(ids), Whole(), One(), ExchangeTo(shop, k));
  }

  // ---- activity, customer by customer ----

  function ActivityFor(shop: Shop, branchId: Id): Id -> ActivityRow
  {
    Grouped(Activities(shop, branchId), ActorOf(), StartActivity(), AddActivity())
  }

  function ReturnsIn(): ActivityRow -> int { (r: ActivityRow) => r.returnCount }
  function ExchangesIn(): ActivityRow -> int { (r: ActivityRow) => r.exchangeCount }
  function ActivityReturned(): Activity -> int { (a: Activity) => a.returned }
  function ActivityExchanged(): Activity -> int { (a: Activity) => a.exchanged }

  /** The sale is one of the branch's, and the customer's. */
  predicate BoughtHere(sales: map<Id, Sale>, k: Id, saleId: Id)
  {
    saleId in sales && sales[saleId].customerId == Some(k)
  }

  function ReturnedBy(sales: map<Id, Sale>, k: Id): CustomerReturnNote -> int
  {
    (n: CustomerReturnNote) => if BoughtHere(sales, k, n.saleId) then 1 else 0
  }

  function CreditedTo(shop: Shop, sales: map<Id, Sale>, k: Id): CustomerReturnNote -> int
  {
    (n: CustomerReturnNote) =>
      if BoughtHere(sales, k, n.saleId) then CreditTotal(shop.creditNotes, n.creditNoteId) else 0
  }

  function ExchangedBy(sales: map<Id, Sale>, branchId: Id, k: Id): Exchange -> int
  {
    (x: Exchange) => if x.branchId == branchId && BoughtHere(sales, k, x.saleId) then 1 else 0
  }

  /** A figure that grows activity by activity is the sum over the customer's returns and the customer's exchanges. */
  lemma ActivityField(shop: Shop, branchId: Id, k: Id, field: ActivityRow -> int, f: Activity -> int,
                      g: CustomerReturnNote -> int, h: Exchange -> int)
    requires field(StartActivity()(k)) == 0 && forall r, a :: field(AddActivity()(r, a)) == field(r) + f(a)
    requires var sales := SalesById(shop, branchId);
             && (forall n :: g(n) == if BoughtHere(sales, k, n.saleId) then f(ReturnActivity(shop, sales)(n)) else 0)
             && (forall x :: h(x) == if x.branchId == branchId && BoughtHere(sales, k, x.saleId)
                                     then f(ExchangeActivity(shop, sales)(x)) else 0)
    ensures field(ActivityFor(shop, branchId)(k)) == Sum(shop.saleReturns, g) + Sum(shop.exchanges, h)
  {
    hide Sum, FilterMap, SalesById, AddActivity, StartActivity, NameOn, CreditTotal;
    var sales := SalesById(shop, branchId);
    var back := FilterMap(shop.saleReturns, Counts(sales), ReturnActivity(shop, sales));
    var swaps := FilterMap(shop.exchanges, Swaps(sales, branchId), ExchangeActivity(shop, sales));
    var own := Restrict(f, ActorOf(), k);
    GroupedField(Activities(shop, branchId), ActorOf(), StartActivity(), AddActivity(), field, f, k);
    SumConcat(back, swaps, own);
    FilterMapSum(shop.saleReturns, Counts(sales), ReturnActivity(shop, sales), own, g);
    FilterMapSum(shop.exchanges, Swaps(sales, branchId), ExchangeActivity(shop, sales), own, h);
  }

  /** A customer's activity counts the returns and exchanges of the customer's sales at the branch, and their credit. */
  lemma ActivityRowIs(shop: Shop, branchId: Id, k: Id)
    ensures var sales, r := SalesById(shop, branchId), ActivityFor(shop, branchId)(k);
            && r.returnCount == Sum(shop.saleReturns, ReturnedBy(sales, k))
            && r.creditTotal == Sum(shop.saleReturns, CreditedTo(shop, sales, k))
            && r.exchangeCount == Sum(shop.exchanges, ExchangedBy(sales, branchId, k))
  {
    hide Sum, SalesById, ActivityFor, NameOn, CreditTotal;
    var sales := SalesById(shop, branchId);
    ActivityField(shop, branchId, k, ReturnsIn(), ActivityReturned(), ReturnedBy(sales, k), NoExchange());
    ActivityField(shop, branchId, k, CreditIn(), ActivityCredit(), CreditedTo(shop, sales, k), NoExchange());
    ActivityField(shop, branchId, k, ExchangesIn(), ActivityExchanged(), NoReturn(), ExchangedBy(sales, branchId, k));
    SumZero(shop.exchanges, NoExchange());
    SumZero(shop.saleReturns, NoReturn());
  }

  function NoExchange(): Exchange -> int { (x: Exchange) => 0 }
  function NoReturn(): CustomerReturnNote -> int { (n: CustomerReturnNote) => 0 }
}
