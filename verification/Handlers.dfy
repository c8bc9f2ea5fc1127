/**
 * What each POST handler does to the application state (main.py), as a function of the state before the call.
 * A handler often changes memory before it finds out that it must refuse, so every outcome carries the memory it
 * leaves behind; what becomes of that memory is the middleware's business.
 */
module Handlers {
  import opened Folds
  import opened Inventory
  import opened Entities
  import opened Taxes
  import opened Money
  import opened Numbering
  import opened StateModel
  import opened BatchTracking

  /** The ids `uuid4` hands out during one request, in order. */
  type Uuids = nat -> Id

  datatype Call = Call(tenantId: Id, ids: Uuids, today: Date)

  /** `Refused` is an HTTP error response; `Crashed` is an uncaught `KeyError` or `IndexError`. */
  datatype Verdict = Accepted | Refused | Crashed

  datatype Outcome = Outcome(verdict: Verdict, state: State)

  datatype Request =
    | CreateTenant
    | SetTenantStatus(target: Id, suspended: bool)
    | CreateBranch(gstin: Option<string>)
    | CreateProduct(sellingPrice: int, taxRate: int)
    | CreateSupplier(name: string, gstin: Option<string>, termsDays: int)
    | CreateCustomer(gstin: Option<string>)
    | SaveOverride(branchId: Id, productId: Id, price: Option<int>, active: bool)
    | SaveReorderRule(branchId: Id, productId: Id, minStock: int, targetStock: int)
    | OpenCashSession(branchId: Id, openingFloat: int)
    | CloseCashSession(sessionId: Id, closing: int)
    | CreateOrder(branchId: Id, supplierId: Id, orderLines: seq<OrderLine>)
    | SubmitOrder(branchId: Id, orderId: Id)
    | DecideOrder(branchId: Id, orderId: Id, approve: bool)
    | CreateReceipt(branchId: Id, orderId: Id)
    | RecordLots(branchId: Id, receiptId: Id, lots: seq<LotInput>)
    | CreatePurchaseInvoice(branchId: Id, receiptId: Id)
    | OpenDispute(branchId: Id, aboutReceipt: Option<Id>, aboutInvoice: Option<Id>, disputeType: string)
    | ResolveDispute(branchId: Id, disputeId: Id)
    | CreateTransfer(source: Id, destination: Id, lines: seq<Line>)
    | CountStock(branchId: Id, reason: string, lines: seq<Line>)
    | CreateSale(branchId: Id, customerId: Option<Id>, customerGstin: Option<string>, lines: seq<Line>, paymentAmount: int,
                 paymentMethod: string, cashSessionId: Option<Id>)
    | ReturnSale(branchId: Id, saleId: Id, lines: seq<Line>, refund: int, mayApprove: bool)
    | ApproveRefund(saleReturnId: Id)
    | ExchangeSale(branchId: Id, saleId: Id, lines: seq<Line>, replacements: seq<Line>, paymentMethod: string,
                   cashSessionId: Option<Id>)
    | ReturnToSupplier(branchId: Id, invoiceId: Id, lines: seq<Line>)
    | PaySupplier(branchId: Id, invoiceId: Id, amount: int, paymentMethod: string)
    | WriteOffLot(branchId: Id, lotId: Id, quantity: int)

  predicate PositiveLines(lines: seq<Line>) { forall i :: 0 <= i < |lines| ==> lines[i].quantity > 0 }

  /** The field constraints of the request models. */
  predicate ValidPayload(r: Request)
  {
    match r
    case CreateSupplier(_, _, terms) => terms >= 0
    case SaveOverride(_, _, price, _) => price.Some? ==> price.value > 0
    case SaveReorderRule(_, _, least, target) => least > 0 && target > 0
    case OpenCashSession(_, amount) => amount >= 0
    case CloseCashSession(_, amount) => amount >= 0
    case CreateOrder(_, _, ls) => forall i :: 0 <= i < |ls| ==> ls[i].quantity > 0 && ls[i].unitCost > 0
    case RecordLots(_, _, lots) =>
      |lots| > 0 && forall i :: 0 <= i < |lots| ==> lots[i].quantity > 0 && |lots[i].batchNumber| > 0
    case OpenDispute(_, _, _, kind) => |kind| > 0
    case CreateTransfer(_, _, ls) => PositiveLines(ls)
    case CountStock(_, _, ls) => forall i :: 0 <= i < |ls| ==> ls[i].quantity >= 0
    case CreateSale(_, _, _, ls, amount, _, _) => PositiveLines(ls) && amount >= 0
    case ReturnSale(_, _, ls, refund, _) => PositiveLines(ls) && refund >= 0
    case ExchangeSale(_, _, ls, rs, _, _) => PositiveLines(ls) && PositiveLines(rs)
    case ReturnToSupplier(_, _, ls) => PositiveLines(ls)
    case PaySupplier(_, _, amount, _) => amount > 0
    case WriteOffLot(_, _, quantity) => quantity > 0
    case _ => true
  }

  // ---- lines that are checked one by one before they are posted ----

  /** Number of lines processed before the first one that does not pass. */
  function FirstFault(lines: seq<Line>, check: Line -> Verdict): (k: nat)
    ensures k <= |lines|
    ensures forall i :: 0 <= i < k ==> check(lines[i]).Accepted?
    ensures k < |lines| ==> !check(lines[k]).Accepted?
  {
    if |lines| == 0 then 0
    else
      var k := FirstFault(lines[..|lines| - 1], check);
      if k < |lines| - 1 || !check(lines[|lines| - 1]).Accepted? then k else |lines|
  }

  /** `FirstFault` is the only position with that description, so a loop that stops there stops at it. */
  lemma {:induction false} FirstFaultAt(lines: seq<Line>, check: Line -> Verdict, k: nat)
    requires k <= |lines| && (forall i :: 0 <= i < k ==> check(lines[i]).Accepted?)
    requires k < |lines| ==> !check(lines[k]).Accepted?
    ensures FirstFault(lines, check) == k
  {
  }

  function Posted(s: State, lines: seq<Line>, branch: Id, kind: EntryKind, sign: int): State
  {
    s.(ledger := s.ledger + Map(lines, Post(branch, kind, sign)))
  }

  // ---- tenants, catalogue, customers ----

  function SetTenant(s: State, target: Id, suspended: bool): Outcome
  {
    if target !in s.registry.tenants then Outcome(Crashed, s)
    else Outcome(Accepted, s.(registry := s.registry.(tenants := s.registry.tenants[target := Tenant(suspended)])))
  }

  function PutReorderRule(s: State, c: Call, branch: Id, product: Id, least: int, target: int): Outcome
  {
    if target < least then Outcome(Refused, s)
    else Outcome(Accepted, s.(registry := s.registry.(reorderRules :=
        s.registry.reorderRules[(branch, product) := ReorderRule(c.tenantId, branch, product, least, target)])))
  }

  // ---- cash sessions ----

  function NewSession(c: Call, branch: Id, openingFloat: int): CashSession
  {
    CashSession(c.tenantId, branch, true, openingFloat, 0, openingFloat, None, None)
  }

  function CloseSession(s: State, sessionId: Id, closing: int): Outcome
  {
    if sessionId !in s.selling.cashSessions then Outcome(Crashed, s)
    else
      var session := s.selling.cashSessions[sessionId];
      if !session.open then Outcome(Refused, s)
      else
        var expected := ExpectedClose(session.openingFloat, session.cashSales);
        Outcome(Accepted, s.(selling := s.selling.(cashSessions := s.selling.cashSessions[sessionId := session.(
          open := false, closing := Some(closing), expectedClose := expected, variance := Some(closing - expected))])))
  }

  /** Cash taken into, or for a negative amount paid out of, an open drawer. */
  function TakeCash(session: CashSession, amount: int): CashSession
  {
    var total := session.cashSales + amount;
    session.(cashSales := total, expectedClose := session.openingFloat + total)
  }

  /** The part of a sale or an exchange that concerns its cash session. */
  function SettleSession(sessions: map<Id, CashSession>, sessionId: Option<Id>, method_: string, amount: int)
    : (r: (Verdict, map<Id, CashSession>))
    ensures !r.0.Accepted? ==> r.1 == sessions
  {
    if sessionId.None? then (Accepted, sessions)
    else if sessionId.value !in sessions then (Crashed, sessions)
    else if !sessions[sessionId.value].open then (Refused, sessions)
    else if method_ == "cash" then (Accepted, sessions[sessionId.value := TakeCash(sessions[sessionId.value], amount)])
    else (Accepted, sessions)
  }

  // ---- purchase orders and receipts ----

  predicate OwnedOrder(s: State, c: Call, branch: Id, orderId: Id)
  {
    orderId in s.purchasing.purchaseOrders && s.purchasing.purchaseOrders[orderId].tenantId == c.tenantId
        && s.purchasing.purchaseOrders[orderId].branchId == branch
  }

  function Submit(s: State, c: Call, branch: Id, orderId: Id): Outcome
  {
    if !OwnedOrder(s, c, branch, orderId) then Outcome(Refused, s)
    else
      var order := s.purchasing.purchaseOrders[orderId];
      if order.status != NotRequested && order.status != Rejected then Outcome(Refused, s)
      else Outcome(Accepted, s.(purchasing := s.purchasing.(purchaseOrders := s.purchasing.purchaseOrders[orderId := order.(
        status := PendingApproval, requestedOn := Some(c.today), decidedOn := None, approvedOn := None)])))
  }

  function Decide(s: State, c: Call, branch: Id, orderId: Id, approve: bool): Outcome
  {
    if !OwnedOrder(s, c, branch, orderId) then Outcome(Refused, s)
    else
      var order := s.purchasing.purchaseOrders[orderId];
      if order.status != PendingApproval then Outcome(Refused, s)
      else Outcome(Accepted, s.(purchasing := s.purchasing.(purchaseOrders := s.purchasing.purchaseOrders[orderId := order.(
        status := if approve then Approved else Rejected, decidedOn := Some(c.today),
        approvedOn := if approve then Some(c.today) else None)])))
  }

  function Plain(): OrderLine -> Line { (l: OrderLine) => Line(l.productId, l.quantity) }

  function Bare(lines: seq<OrderLine>): seq<Line> { Map(lines, Plain()) }

  ghost predicate AlreadyReceived(s: State, orderId: Id)
  {
    exists k :: k in s.purchasing.goodsReceipts && s.purchasing.goodsReceipts[k].orderId == orderId
  }

  ghost function Receive(s: State, c: Call, branch: Id, orderId: Id): Outcome
  {
    if !OwnedOrder(s, c, branch, orderId) then Outcome(Refused, s)
    else if AlreadyReceived(s, orderId) then Outcome(Refused, s)
    else
      var order := s.purchasing.purchaseOrders[orderId];
      if order.status != Approved then Outcome(Refused, s)
      else
        var posted := Posted(s, Bare(order.lines), branch, PurchaseReceipt, 1);
        Outcome(Accepted, posted.(purchasing := posted.purchasing.(goodsReceipts := s.purchasing.goodsReceipts[c.ids(0) :=
          GoodsReceipt(c.ids(0), c.tenantId, branch, orderId, order.supplierId, c.today, order.lines)])))
  }

  function NewLot(c: Call, receipt: GoodsReceipt, branch: Id, input: LotInput, id: Id): BatchLot
  {
    BatchLot(id, c.tenantId, branch, receipt.id, receipt.orderId, input.productId, input.batchNumber, input.quantity, 0,
        input.expiry)
  }

  function StoreLots(lots: map<Id, BatchLot>, c: Call, receipt: GoodsReceipt, branch: Id,
      inputs: seq<LotInput>): map<Id, BatchLot>
  {
    if |inputs| == 0 then lots
    else
      var n := |inputs| - 1;
      StoreLots(lots, c, receipt, branch, inputs[..n])[c.ids(n) := NewLot(c, receipt, branch, inputs[n], c.ids(n))]
  }

  predicate OwnedReceipt(s: State, c: Call, branch: Id, receiptId: Id)
  {
    receiptId in s.purchasing.goodsReceipts && s.purchasing.goodsReceipts[receiptId].tenantId == c.tenantId
        && s.purchasing.goodsReceipts[receiptId].branchId == branch
  }

  ghost predicate HasLots(s: State, receiptId: Id)
  {
    exists k :: k in s.purchasing.batchLots && s.purchasing.batchLots[k].receiptId == receiptId
  }

  ghost function Intake(s: State, c: Call, branch: Id, receiptId: Id, inputs: seq<LotInput>): Outcome
  {
    if !OwnedReceipt(s, c, branch, receiptId) then Outcome(Refused, s)
    else if HasLots(s, receiptId) then Outcome(Refused, s)
    else
      var receipt := s.purchasing.goodsReceipts[receiptId];
      if !LotsMatch(receipt.lines, inputs) then Outcome(Refused, s)
      else Outcome(Accepted, s.(purchasing := s.purchasing.(batchLots :=
          StoreLots(s.purchasing.batchLots, c, receipt, branch, inputs))))
  }

  // ---- purchase invoices ----

  function RateOf(products: map<Id, Product>, productId: Id): int
  {
    if productId in products then products[productId].taxRate else 0
  }

  function Costed(products: map<Id, Product>): OrderLine -> CostLine
  {
    (l: OrderLine) => CostLine(l.quantity, l.unitCost, RateOf(products, l.productId))
  }

  predicate AllKnown(products: map<Id, Product>, lines: seq<OrderLine>)
  {
    forall i :: 0 <= i < |lines| ==> lines[i].productId in products
  }

  ghost predicate AlreadyInvoiced(s: State, receiptId: Id)
  {
    exists k :: k in s.purchasing.purchaseInvoices && s.purchasing.purchaseInvoices[k].receiptId == receiptId
  }

  ghost function InvoiceReceipt(s: State, c: Call, branch: Id, receiptId: Id): (o: Outcome)
    ensures o.state == s.(purchasing := s.purchasing.(purchaseInvoices := o.state.purchasing.purchaseInvoices),
        counters := o.state.counters)
  {
    if receiptId !in s.purchasing.goodsReceipts then Outcome(Crashed, s)
    else
      var receipt := s.purchasing.goodsReceipts[receiptId];
      if AlreadyInvoiced(s, receipt.id) then Outcome(Refused, s)
      else if receipt.supplierId !in s.registry.suppliers || branch !in s.registry.branches then Outcome(Crashed, s)
      else if !AllKnown(s.registry.products, receipt.lines) then Outcome(Crashed, s)
      else
        Outcome(Accepted, s.(purchasing := s.purchasing.(purchaseInvoices :=
            s.purchasing.purchaseInvoices[c.ids(0) := BillOf(s, c, branch, receipt)]),
            counters := Advance(s.counters, PurchaseBill, branch)))
  }

  function BillOf(s: State, c: Call, branch: Id, receipt: GoodsReceipt): PurchaseInvoice
    requires receipt.supplierId in s.registry.suppliers && branch in s.registry.branches
  {
    var supplier := s.registry.suppliers[receipt.supplierId];
    var totals := PurchaseTotals(supplier.gstin, s.registry.branches[branch].gstin,
        Map(receipt.lines, Costed(s.registry.products)));
    PurchaseInvoice(c.ids(0), c.tenantId, branch, receipt.id, receipt.orderId, receipt.supplierId, c.today,
                    c.today + Max(0, supplier.termsDays), supplier.termsDays, NextNumber(s.counters, PurchaseBill, branch),
                    totals, receipt.lines)
  }

  // ---- disputes ----

  predicate OwnedInvoice(s: State, c: Call, branch: Id, invoiceId: Id)
  {
    && invoiceId in s.purchasing.purchaseInvoices && s.purchasing.purchaseInvoices[invoiceId].tenantId == c.tenantId
    && s.purchasing.purchaseInvoices[invoiceId].branchId == branch
  }

  function Dispute(s: State, c: Call, branch: Id, receiptId: Option<Id>, invoiceId: Option<Id>, kind: string): Outcome
  {
    if receiptId.Some? == invoiceId.Some? then Outcome(Refused, s)
    else if receiptId.Some? && !OwnedReceipt(s, c, branch, receiptId.value) then Outcome(Refused, s)
    else if invoiceId.Some? && !OwnedInvoice(s, c, branch, invoiceId.value) then Outcome(Refused, s)
    else
      var supplier := if receiptId.Some? then s.purchasing.goodsReceipts[receiptId.value].supplierId
                      else s.purchasing.purchaseInvoices[invoiceId.value].supplierId;
      Outcome(Accepted, s.(purchasing := s.purchasing.(vendorDisputes := s.purchasing.vendorDisputes[c.ids(0) :=
        VendorDispute(c.ids(0), c.tenantId, branch, supplier, receiptId, invoiceId, kind, true, c.today, None)])))
  }

  function Resolve(s: State, c: Call, branch: Id, disputeId: Id): Outcome
  {
    if disputeId !in s.purchasing.vendorDisputes then Outcome(Refused, s)
    else
      var d := s.purchasing.vendorDisputes[disputeId];
      if d.tenantId != c.tenantId || d.branchId != branch || !d.open then Outcome(Refused, s)
      else Outcome(Accepted, s.(purchasing := s.purchasing.(vendorDisputes :=
          s.purchasing.vendorDisputes[disputeId := d.(open := false, resolvedOn := Some(c.today))])))
  }

  // ---- stock movements ----

  function MoveStock(s: State, c: Call, source: Id, destination: Id, lines: seq<Line>): Outcome
  {
    Outcome(Accepted, s.(ledger := AfterTransfers(s.ledger, source, destination, lines),
        stockroom := s.stockroom.(transfers :=
            s.stockroom.transfers[c.ids(0) := Transfer(c.tenantId, source, destination, lines)])))
  }

  function TakeCount(s: State, c: Call, branch: Id, reason: string, lines: seq<Line>): Outcome
  {
    Outcome(Accepted, s.(ledger := AfterCounts(s.ledger, branch, lines),
        stockroom := s.stockroom.(stockCounts := s.stockroom.stockCounts[c.ids(0) :=
                           StockCount(c.tenantId, branch, reason, CountResults(s.ledger, branch, lines))])))
  }

  /** The lots a branch report sees. */
  function BranchLots(lots: map<Id, BatchLot>, tenantId: Id, branch: Id): map<Id, BatchLot>
  {
    map k | k in lots && lots[k].tenantId == tenantId && lots[k].branchId == branch :: lots[k]
  }

  ghost function WriteOff(s: State, c: Call, branch: Id, lotId: Id, quantity: int): (o: Outcome)
    ensures o.state == s.(purchasing := s.purchasing.(batchLots := o.state.purchasing.batchLots), ledger := o.state.ledger)
  {
    var lots := BranchLots(s.purchasing.batchLots, c.tenantId, branch);
    if lotId !in lots then Outcome(Refused, s)
    else if exists k :: k in lots && lots[k].productId !in s.registry.products then Outcome(Crashed, s)
    else
      var lot := lots[lotId];
      var remaining := StoredRemaining(lots, Stock(s.ledger, lot.productId, branch), lot);
      if remaining <= 0 || quantity > remaining then Outcome(Refused, s)
      else Outcome(Accepted, s.(purchasing := s.purchasing.(batchLots :=
          s.purchasing.batchLots[lotId := WrittenOff(lot, quantity)]),
          ledger := s.ledger + [Entry(lot.productId, branch, -quantity, ExpiryWriteOff)]))
  }

  // ---- sales ----

  /** What pricing reads. */
  datatype Catalogue = Catalogue(products: map<Id, Product>, overrides: map<(Id, Id), CatalogOverride>)

  function CatalogueOf(s: State): Catalogue { Catalogue(s.registry.products, s.registry.catalogOverrides) }

  function UnitPrice(cat: Catalogue, branch: Id, productId: Id): int
  {
    if (branch, productId) in cat.overrides && cat.overrides[(branch, productId)].sellingPrice.Some?
    then cat.overrides[(branch, productId)].sellingPrice.value
    else if productId in cat.products then cat.products[productId].sellingPrice
    else 0
  }

  /** `_resolve_branch_pricing`: an unknown product is a `KeyError`, an inactive one an HTTP error. */
  function PricingFault(cat: Catalogue, branch: Id): Line -> Verdict
  {
    (l: Line) =>
      if l.productId !in cat.products then Crashed
      else if (branch, l.productId) in cat.overrides && !cat.overrides[(branch, l.productId)].active then Refused
      else Accepted
  }

  function LineTotal(cat: Catalogue, branch: Id): Line -> int
  {
    (l: Line) => Amount(l.quantity, UnitPrice(cat, branch, l.productId))
  }

  function SoldLine(cat: Catalogue, branch: Id): Line -> SaleLine
  {
    (l: Line) => SaleLine(l.productId, l.quantity, UnitPrice(cat, branch, l.productId))
  }

  function Visit(customer: Customer, saleId: Id, total: int, gstin: Option<string>): Customer
  {
    customer.(visitCount := customer.visitCount + 1, lifetimeValue := customer.lifetimeValue + total,
        lastSaleId := Some(saleId), gstin := if customer.gstin.None? then gstin else customer.gstin)
  }

  function SaleInvoiceOf(counters: Counters, cat: Catalogue, branches: map<Id, Branch>, c: Call, branch: Id,
                         gstin: Option<string>, lines: seq<Line>): Invoice
    requires branch in branches && |lines| > 0
  {
    var subtotal := Sum(lines, LineTotal(cat, branch));
    var tax := InvoiceTaxes(branches[branch].gstin, gstin, subtotal, RateOf(cat.products, lines[0].productId));
    Invoice(c.tenantId, branch, NextNumber(counters, SalesInvoice, branch), gstin, subtotal, tax, subtotal + tax.total)
  }

  function CountVisit(customers: map<Id, Customer>, customerId: Option<Id>, saleId: Id, total: int, gstin: Option<string>)
    : map<Id, Customer>
  {
    if customerId.Some? && customerId.value in customers then
      customers[customerId.value := Visit(customers[customerId.value], saleId, total, gstin)]
    else customers
  }

  /** The dictionaries a sale writes. */
  datatype Till = Till(
    invoices: map<Id, Invoice>,
    sales: map<Id, Sale>,
    counters: Counters,
    cashSessions: map<Id, CashSession>,
    customers: map<Id, Customer>,
    ledger: Ledger)

  function RingUp(t: Till, cat: Catalogue, branches: map<Id, Branch>, c: Call, branch: Id, customerId: Option<Id>,
                  gstin: Option<string>, lines: seq<Line>, payment: int, method_: string,
                      sessionId: Option<Id>): (Verdict, Till)
  {
    if branch !in branches then (Crashed, t)
    else if customerId.Some? && customerId.value !in t.customers then (Refused, t)
    else
      var check := PricingFault(cat, branch);
      var k := FirstFault(lines, check);
      var posted := t.ledger + Map(lines[..k], Post(branch, SaleIssue, -1));
      if k < |lines| then (check(lines[k]), t.(ledger := posted))
      else if |lines| == 0 then (Crashed, t.(ledger := posted))
      else
        var invoice := SaleInvoiceOf(t.counters, cat, branches, c, branch, gstin, lines);
        var sale := SaleOf(cat, c, branch, customerId, lines, payment, method_, sessionId);
        var (verdict, sessions) := SettleSession(t.cashSessions, sessionId, method_, invoice.grandTotal);
        var customers := if verdict != Accepted then t.customers
                         else CountVisit(t.customers, customerId, c.ids(1), invoice.grandTotal, gstin);
        (verdict, Till(t.invoices[c.ids(0) := invoice], t.sales[c.ids(1) := sale],
            Advance(t.counters, SalesInvoice, branch), sessions, customers, posted))
  }

  function SaleOf(cat: Catalogue, c: Call, branch: Id, customerId: Option<Id>, lines: seq<Line>, payment: int,
      method_: string, sessionId: Option<Id>): Sale
  {
    Sale(c.ids(1), c.tenantId, branch, c.ids(0), customerId, method_, sessionId, payment, Map(lines, SoldLine(cat, branch)))
  }

  function TillOf(s: State): Till
  {
    Till(s.selling.invoices, s.selling.sales, s.counters, s.selling.cashSessions, s.selling.customers, s.ledger)
  }

  function Sell(s: State, c: Call, branch: Id, customerId: Option<Id>, gstin: Option<string>, lines: seq<Line>,
      payment: int, method_: string, sessionId: Option<Id>): Outcome
  {
    var (verdict, t) := RingUp(TillOf(s), CatalogueOf(s), s.registry.branches, c, branch, customerId, gstin, lines,
        payment, method_, sessionId);
    Outcome(verdict, s.(selling := s.selling.(invoices := t.invoices, sales := t.sales, cashSessions := t.cashSessions,
        customers := t.customers), counters := t.counters, ledger := t.ledger))
  }

  // ---- sale returns and exchanges ----

  function FindSaleLine(lines: seq<SaleLine>, productId: Id): Option<SaleLine>
  {
    if |lines| == 0 then None
    else if lines[0].productId == productId then Some(lines[0])
    else FindSaleLine(lines[1..], productId)
  }

  function SoldPrice(sale: Sale, productId: Id): int
  {
    var found := FindSaleLine(sale.lines, productId);
    if found.Some? then found.value.unitPrice else 0
  }

  function ReturnFault(sale: Sale): Line -> Verdict
  {
    (l: Line) => if FindSaleLine(sale.lines, l.productId).None? then Refused else Accepted
  }

  function ReturnedTotal(sale: Sale): Line -> int { (l: Line) => Amount(l.quantity, SoldPrice(sale, l.productId)) }

  function CustomerCredit(s: State, c: Call, branch: Id, sale: Sale, lines: seq<Line>): CreditNote
    requires sale.invoiceId in s.selling.invoices && branch in s.registry.branches && |lines| > 0
  {
    var subtotal := Sum(lines, ReturnedTotal(sale));
    var tax := InvoiceTaxes(s.registry.branches[branch].gstin, s.selling.invoices[sale.invoiceId].customerGstin, subtotal,
                            RateOf(s.registry.products, lines[0].productId));
    CreditNote(c.tenantId, branch, c.ids(0), NextNumber(s.counters, CustomerCreditNote, branch), subtotal, tax,
        subtotal + tax.total)
  }

  function TakeBack(s: State, c: Call, branch: Id, saleId: Id, lines: seq<Line>, refund: int,
      mayApprove: bool): (o: Outcome)
    ensures o.state == s.(selling := s.selling.(creditNotes := o.state.selling.creditNotes,
        saleReturns := o.state.selling.saleReturns), counters := o.state.counters, ledger := o.state.ledger)
  {
    if saleId !in s.selling.sales || s.selling.sales[saleId].invoiceId !in s.selling.invoices
       || branch !in s.registry.branches
    then Outcome(Crashed, s)
    else
      var sale := s.selling.sales[saleId];
      if refund > sale.paymentAmount then Outcome(Refused, s)
      else
        var check := ReturnFault(sale);
        var k := FirstFault(lines, check);
        var posted := Posted(s, lines[..k], branch, CustomerReturn, 1);
        if k < |lines| then Outcome(check(lines[k]), posted)
        else if |lines| == 0 || lines[0].productId !in s.registry.products then Outcome(Crashed, posted)
        else
          var note := CustomerCredit(s, c, branch, sale, lines);
          if refund > note.grandTotal then Outcome(Refused, posted)
          else Outcome(Accepted, posted.(selling := posted.selling.(creditNotes :=
              s.selling.creditNotes[c.ids(1) := note], saleReturns := s.selling.saleReturns[c.ids(0) :=
              CustomerReturnNote(c.tenantId, branch, saleId, mayApprove, c.ids(1), refund)]),
                  counters := Advance(s.counters, CustomerCreditNote, branch)))
  }

  /** The response reads the credit note after the status was changed. */
  function Approve(s: State, saleReturnId: Id): (o: Outcome)
    ensures o.state == s.(selling := s.selling.(saleReturns := o.state.selling.saleReturns))
  {
    if saleReturnId !in s.selling.saleReturns then Outcome(Crashed, s)
    else
      var note := s.selling.saleReturns[saleReturnId].(refundApproved := true);
      Outcome(if note.creditNoteId in s.selling.creditNotes then Accepted else Crashed,
              s.(selling := s.selling.(saleReturns := s.selling.saleReturns[saleReturnId := note])))
  }

  function ExchangeFault(products: map<Id, Product>, sale: Sale): Line -> Verdict
  {
    (l: Line) =>
      if FindSaleLine(sale.lines, l.productId).None? then Refused
      else if l.productId !in products then Crashed
      else Accepted
  }

  function ReturnedGross(products: map<Id, Product>, sale: Sale): Line -> int
  {
    (l: Line) => TaxInclusive(ReturnedTotal(sale)(l), RateOf(products, l.productId))
  }

  function ReplacementGross(cat: Catalogue, branch: Id): Line -> int
  {
    (l: Line) => TaxInclusive(LineTotal(cat, branch)(l), RateOf(cat.products, l.productId))
  }

  function ExchangeOf(s: State, c: Call, branch: Id, saleId: Id, sale: Sale, lines: seq<Line>, replacements: seq<Line>,
                      method_: string, sessionId: Option<Id>): Exchange
  {
    var returnTotal := Sum(lines, ReturnedGross(s.registry.products, sale));
    var replacementTotal := Sum(replacements, ReplacementGross(CatalogueOf(s), branch));
    var (direction, balance) := ExchangeBalance(returnTotal, replacementTotal);
    Exchange(c.tenantId, branch, saleId, returnTotal, replacementTotal, method_, sessionId, direction, balance)
  }

  function Swap(s: State, c: Call, branch: Id, saleId: Id, lines: seq<Line>, replacements: seq<Line>, method_: string,
                sessionId: Option<Id>): (o: Outcome)
    ensures o.state == s.(selling := s.selling.(exchanges := o.state.selling.exchanges,
        cashSessions := o.state.selling.cashSessions), ledger := o.state.ledger)
  {
    if saleId !in s.selling.sales then Outcome(Crashed, s)
    else
      var sale := s.selling.sales[saleId];
      var k := FirstFault(lines, ExchangeFault(s.registry.products, sale));
      var back := Posted(s, lines[..k], branch, CustomerReturn, 1);
      if k < |lines| then Outcome(ExchangeFault(s.registry.products, sale)(lines[k]), back)
      else
        var j := FirstFault(replacements, PricingFault(CatalogueOf(s), branch));
        var posted := Posted(back, replacements[..j], branch, SaleIssue, -1);
        if j < |replacements| then Outcome(PricingFault(CatalogueOf(s), branch)(replacements[j]), posted)
        else
          var exchange := ExchangeOf(s, c, branch, saleId, sale, lines, replacements, method_, sessionId);
          var (verdict, sessions) :=
            SettleSession(s.selling.cashSessions, sessionId, method_, Signed(exchange.direction, exchange.balance));
          if verdict != Accepted then Outcome(verdict, posted)
          else Outcome(Accepted, posted.(selling := posted.selling.(cashSessions := sessions,
              exchanges := s.selling.exchanges[c.ids(0) := exchange])))
  }

  // ---- supplier returns and payments ----

  function FindLine(lines: seq<OrderLine>, productId: Id): Option<OrderLine>
  {
    if |lines| == 0 then None
    else if lines[0].productId == productId then Some(lines[0])
    else FindLine(lines[1..], productId)
  }

  /** Units of a product on the return notes of an invoice. */
  function ReturnedUnits(invoiceId: Id, productId: Id): SupplierReturnNote -> int
  {
    (n: SupplierReturnNote) => if n.invoiceId == invoiceId then Sum(n.lines, Ordered(productId)) else 0
  }

  ghost function Returned(notes: map<Id, SupplierReturnNote>, invoiceId: Id, productId: Id): int
  {
    SumMap(notes, ReturnedUnits(invoiceId, productId))
  }

  /** The check of one return line against the invoice, the notes already stored and the catalogue. */
  ghost function SupplierReturnFault(invoice: PurchaseInvoice, invoiceId: Id, notes: map<Id, SupplierReturnNote>,
                                     products: map<Id, Product>): Line -> Verdict
  {
    (l: Line) =>
      var found := FindLine(invoice.lines, l.productId);
      if found.None? then Refused
      else if l.quantity > found.value.quantity - Returned(notes, invoiceId, l.productId) then Refused
      else if l.productId !in products then Crashed
      else Accepted
  }

  function ReturnCost(products: map<Id, Product>, lines: seq<OrderLine>): Line -> CostLine
  {
    (l: Line) =>
      var found := FindLine(lines, l.productId);
      CostLine(l.quantity, if found.Some? then found.value.unitCost else 0, RateOf(products, l.productId))
  }

  function ReturnNoteOf(s: State, c: Call, branch: Id, invoice: PurchaseInvoice, invoiceId: Id,
      lines: seq<Line>): SupplierReturnNote
    requires invoice.supplierId in s.registry.suppliers && branch in s.registry.branches
  {
    var totals := PurchaseTotals(s.registry.suppliers[invoice.supplierId].gstin, s.registry.branches[branch].gstin,
                                 Map(lines, ReturnCost(s.registry.products, invoice.lines)));
    SupplierReturnNote(c.tenantId, branch, invoiceId, invoice.supplierId, c.today,
                       NextNumber(s.counters, SupplierCreditNote, branch), totals, lines)
  }

  ghost function SendBack(s: State, c: Call, branch: Id, invoiceId: Id, lines: seq<Line>): (o: Outcome)
    ensures o.state == s.(purchasing := s.purchasing.(supplierReturns := o.state.purchasing.supplierReturns),
        counters := o.state.counters, ledger := o.state.ledger)
  {
    if invoiceId !in s.purchasing.purchaseInvoices
       || s.purchasing.purchaseInvoices[invoiceId].supplierId !in s.registry.suppliers || branch !in s.registry.branches
    then Outcome(Crashed, s)
    else
      var invoice := s.purchasing.purchaseInvoices[invoiceId];
      var check := SupplierReturnFault(invoice, invoiceId, s.purchasing.supplierReturns, s.registry.products);
      var k := FirstFault(lines, check);
      var posted := Posted(s, lines[..k], branch, SupplierReturn, -1);
      if k < |lines| then Outcome(check(lines[k]), posted)
      else
        Outcome(Accepted, posted.(purchasing := posted.purchasing.(supplierReturns :=
            s.purchasing.supplierReturns[c.ids(0) := ReturnNoteOf(s, c, branch, invoice, invoiceId, lines)]),
            counters := Advance(s.counters, SupplierCreditNote, branch)))
  }

  function CreditFor(invoiceId: Id): SupplierReturnNote -> int
  {
    (n: SupplierReturnNote) => if n.invoiceId == invoiceId then n.totals.grandTotal else 0
  }

  function PaidFor(invoiceId: Id): SupplierPayment -> int
  {
    (p: SupplierPayment) => if p.invoiceId == invoiceId then p.amount else 0
  }

  function OpenAmount(grandTotal: int, credited: int, paid: int): int { Max(0, grandTotal - credited - paid) }

  ghost function Outstanding(s: State, invoiceId: Id): int
    requires invoiceId in s.purchasing.purchaseInvoices
  {
    OpenAmount(s.purchasing.purchaseInvoices[invoiceId].totals.grandTotal,
        SumMap(s.purchasing.supplierReturns, CreditFor(invoiceId)),
               SumMap(s.purchasing.supplierPayments, PaidFor(invoiceId)))
  }

  ghost function Pay(s: State, c: Call, branch: Id, invoiceId: Id, amount: int, method_: string): (o: Outcome)
    ensures o.state == s.(purchasing := s.purchasing.(supplierPayments := o.state.purchasing.supplierPayments),
        counters := o.state.counters)
  {
    if !OwnedInvoice(s, c, branch, invoiceId) then Outcome(Refused, s)
    else if amount > Outstanding(s, invoiceId) then Outcome(Refused, s)
    else
      Outcome(Accepted, s.(purchasing := s.purchasing.(supplierPayments :=
          s.purchasing.supplierPayments[c.ids(0) := PaymentOf(s, c, branch, invoiceId, amount, method_)]),
          counters := Advance(s.counters, SupplierPaymentSlip, branch)))
  }

  ghost function PaymentOf(s: State, c: Call, branch: Id, invoiceId: Id, amount: int, method_: string): SupplierPayment
    requires invoiceId in s.purchasing.purchaseInvoices
  {
    var invoice := s.purchasing.purchaseInvoices[invoiceId];
    var left := invoice.totals.grandTotal - SumMap(s.purchasing.supplierReturns, CreditFor(invoiceId))
                - SumMap(s.purchasing.supplierPayments, PaidFor(invoiceId)) - amount;
    SupplierPayment(c.ids(0), c.tenantId, branch, invoiceId, invoice.supplierId,
                    NextNumber(s.counters, SupplierPaymentSlip, branch), c.today, amount, method_, left)
  }

  // ---- dispatch ----

  function PutOverride(s: State, c: Call, branch: Id, product: Id, price: Option<int>, active: bool): Outcome
  {
    Outcome(Accepted, s.(registry := s.registry.(catalogOverrides := s.registry.catalogOverrides[(branch, product) :=
      CatalogOverride(c.tenantId, branch, product, price, active)])))
  }

  function OpenSession(s: State, c: Call, branch: Id, openingFloat: int): Outcome
  {
    Outcome(Accepted, s.(selling := s.selling.(cashSessions :=
        s.selling.cashSessions[c.ids(0) := NewSession(c, branch, openingFloat)])))
  }

  function PlaceOrder(s: State, c: Call, branch: Id, supplier: Id, lines: seq<OrderLine>): Outcome
  {
    Outcome(Accepted, s.(purchasing := s.purchasing.(purchaseOrders := s.purchasing.purchaseOrders[c.ids(0) :=
      PurchaseOrder(c.ids(0), c.tenantId, branch, supplier, lines, NotRequested, None, None, None)])))
  }

  predicate IsRegistry(r: Request) { r.CreateTenant? || r.SetTenantStatus? || r.CreateBranch? }

  predicate IsParty(r: Request) { r.CreateProduct? || r.CreateSupplier? || r.CreateCustomer? }

  /** Branch rules and cash drawers. */
  predicate IsBranch(r: Request)
  {
    r.SaveOverride? || r.SaveReorderRule? || r.OpenCashSession? || r.CloseCashSession?
  }

  /** From the purchase order to the lots. */
  predicate IsOrdering(r: Request)
  {
    r.CreateOrder? || r.SubmitOrder? || r.DecideOrder? || r.CreateReceipt? || r.RecordLots?
  }

  predicate IsBilling(r: Request) { r.CreatePurchaseInvoice? || r.ReturnToSupplier? || r.PaySupplier? }

  predicate IsDispute(r: Request) { r.OpenDispute? || r.ResolveDispute? }

  predicate IsStock(r: Request) { r.CreateTransfer? || r.CountStock? || r.WriteOffLot? }

  predicate IsSelling(r: Request) { r.CreateSale? || r.ExchangeSale? }

  predicate IsRefund(r: Request) { r.ReturnSale? || r.ApproveRefund? }

  function ApplyRegistry(s: State, c: Call, r: Request): Outcome
    requires IsRegistry(r)
  {
    match r
    case CreateTenant => Outcome(Accepted, s.(registry := s.registry.(tenants :=
        s.registry.tenants[c.ids(0) := Tenant(false)])))
    case SetTenantStatus(target, suspended) => SetTenant(s, target, suspended)
    case CreateBranch(gstin) => Outcome(Accepted, s.(registry :=
        s.registry.(branches := s.registry.branches[c.ids(0) := Branch(c.tenantId, gstin)])))
  }

  function ApplyParty(s: State, c: Call, r: Request): Outcome
    requires IsParty(r)
  {
    match r
    case CreateProduct(price, rate) => Outcome(Accepted, s.(registry :=
        s.registry.(products := s.registry.products[c.ids(0) := Product(c.tenantId, price, rate)])))
    case CreateSupplier(name, gstin, terms) =>
      Outcome(Accepted, s.(registry := s.registry.(suppliers :=
          s.registry.suppliers[c.ids(0) := Supplier(c.tenantId, name, gstin, terms)])))
    case CreateCustomer(gstin) =>
      Outcome(Accepted, s.(selling := s.selling.(customers :=
          s.selling.customers[c.ids(0) := Customer(c.tenantId, gstin, 0, 0, None)])))
  }

  function ApplyBranch(s: State, c: Call, r: Request): Outcome
    requires IsBranch(r)
  {
    match r
    case SaveOverride(branch, product, price, active) => PutOverride(s, c, branch, product, price, active)
    case SaveReorderRule(branch, product, least, target) => PutReorderRule(s, c, branch, product, least, target)
    case OpenCashSession(branch, amount) => OpenSession(s, c, branch, amount)
    case CloseCashSession(session, closing) => CloseSession(s, session, closing)
  }

  ghost function ApplyOrdering(s: State, c: Call, r: Request): Outcome
    requires IsOrdering(r)
  {
    match r
    case CreateOrder(branch, supplier, lines) => PlaceOrder(s, c, branch, supplier, lines)
    case SubmitOrder(branch, order) => Submit(s, c, branch, order)
    case DecideOrder(branch, order, approve) => Decide(s, c, branch, order, approve)
    case CreateReceipt(branch, order) => Receive(s, c, branch, order)
    case RecordLots(branch, receipt, lots) => Intake(s, c, branch, receipt, lots)
  }

  ghost function ApplyBilling(s: State, c: Call, r: Request): Outcome
    requires IsBilling(r)
  {
    match r
    case CreatePurchaseInvoice(branch, receipt) => InvoiceReceipt(s, c, branch, receipt)
    case ReturnToSupplier(branch, invoice, lines) => SendBack(s, c, branch, invoice, lines)
    case PaySupplier(branch, invoice, amount, method_) => Pay(s, c, branch, invoice, amount, method_)
  }

  function ApplyDispute(s: State, c: Call, r: Request): Outcome
    requires IsDispute(r)
  {
    match r
    case OpenDispute(branch, receipt, invoice, kind) => Dispute(s, c, branch, receipt, invoice, kind)
    case ResolveDispute(branch, dispute) => Resolve(s, c, branch, dispute)
  }

  ghost function ApplyStock(s: State, c: Call, r: Request): Outcome
    requires IsStock(r)
  {
    match r
    case CreateTransfer(source, destination, lines) => MoveStock(s, c, source, destination, lines)
    case CountStock(branch, reason, lines) => TakeCount(s, c, branch, reason, lines)
    case WriteOffLot(branch, lot, quantity) => WriteOff(s, c, branch, lot, quantity)
  }

  function ApplySelling(s: State, c: Call, r: Request): Outcome
    requires IsSelling(r)
  {
    match r
    case CreateSale(branch, customer, gstin, lines, payment, method_, session) =>
      Sell(s, c, branch, customer, gstin, lines, payment, method_, session)
    case ExchangeSale(branch, sale, lines, replacements, method_, session) =>
      Swap(s, c, branch, sale, lines, replacements, method_, session)
  }

  function ApplyRefund(s: State, c: Call, r: Request): Outcome
    requires IsRefund(r)
  {
    match r
    case ReturnSale(branch, sale, lines, refund, mayApprove) => TakeBack(s, c, branch, sale, lines, refund, mayApprove)
    case ApproveRefund(saleReturn) => Approve(s, saleReturn)
  }

  /** The handler a request is routed to. */
  ghost function Apply(s: State, c: Call, r: Request): Outcome
  {
    if IsRegistry(r) then ApplyRegistry(s, c, r)
    else if IsParty(r) then ApplyParty(s, c, r)
    else if IsBranch(r) then ApplyBranch(s, c, r)
    else if IsOrdering(r) then ApplyOrdering(s, c, r)
    else if IsBilling(r) then ApplyBilling(s, c, r)
    else if IsDispute(r) then ApplyDispute(s, c, r)
    else if IsStock(r) then ApplyStock(s, c, r)
    else if IsSelling(r) then ApplySelling(s, c, r)
    else ApplyRefund(s, c, r)
  }
}
