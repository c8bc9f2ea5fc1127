/** The cash drawer and the customer totals as caches of the stored sales and exchanges. */
module TillInvariants {
  import opened Folds
  import opened Inventory
  import opened Entities
  import opened Taxes
  import opened StateModel
  import opened Handlers

  function InvoiceTotal(invoices: map<Id, Invoice>, id: Id): int { if id in invoices then invoices[id].grandTotal else 0 }

  /** Cash a sale brought into a session. */
  function CashFromSale(sessionId: Id, invoices: map<Id, Invoice>): Sale -> int
  {
    (x: Sale) => if x.sessionId == Some(sessionId) && x.paymentMethod == "cash" then InvoiceTotal(invoices, x.invoiceId)
        else 0
  }

  /** Cash an exchange brought into, or for a refund took out of, a session. */
  function CashFromExchange(sessionId: Id): Exchange -> int
  {
    (x: Exchange) => if x.sessionId == Some(sessionId) && x.paymentMethod == "cash" then Signed(x.direction, x.balance)
        else 0
  }

  ghost predicate DrawerOk(sell: Selling, id: Id)
    requires id in sell.cashSessions
  {
    var d := sell.cashSessions[id];
    && d.cashSales == SumMap(sell.sales, CashFromSale(id, sell.invoices)) + SumMap(sell.exchanges, CashFromExchange(id))
    && d.expectedClose == d.openingFloat + d.cashSales
    && (d.open ==> d.closing == None && d.variance == None)
    && (!d.open ==> d.closing.Some? && d.variance == Some(d.closing.value - d.expectedClose))
  }

  function VisitOf(customerId: Id): Sale -> int { (x: Sale) => if x.customerId == Some(customerId) then 1 else 0 }

  function SpentBy(customerId: Id, invoices: map<Id, Invoice>): Sale -> int
  {
    (x: Sale) => if x.customerId == Some(customerId) then InvoiceTotal(invoices, x.invoiceId) else 0
  }

  ghost predicate CustomerOk(sell: Selling, id: Id)
    requires id in sell.customers
  {
    && sell.customers[id].visitCount == SumMap(sell.sales, VisitOf(id))
    && sell.customers[id].lifetimeValue == SumMap(sell.sales, SpentBy(id, sell.invoices))
  }

  /** Stored sales, exchanges and returns refer to stored invoices, customers, sessions and credit notes. */
  ghost predicate SaleRefs(sell: Selling)
  {
    && (forall k :: k in sell.sales ==> sell.sales[k].invoiceId in sell.invoices)
    && (forall k :: k in sell.sales && sell.sales[k].customerId.Some? ==> sell.sales[k].customerId.value in sell.customers)
    && (forall k :: k in sell.exchanges && sell.exchanges[k].sessionId.Some? ==>
          sell.exchanges[k].sessionId.value in sell.cashSessions)
    && (forall k :: k in sell.saleReturns ==> sell.saleReturns[k].creditNoteId in sell.creditNotes)
  }

  /**
   * Every session expects its opening float plus the cash of the stored sales and exchanges linked to it, and a closed
   * session records the variance against that. A stored sale may name a session that does not exist: a sale that
   * crashes half-way leaves one behind.
   */
  ghost predicate TillFaithful(sell: Selling)
  {
    SaleRefs(sell) && forall id :: id in sell.cashSessions ==> DrawerOk(sell, id)
  }

  /** Every customer's totals are those of the stored sales. */
  ghost predicate CustomersFaithful(sell: Selling) { forall id :: id in sell.customers ==> CustomerOk(sell, id) }

  /** A sale stored with its invoice adds its own amount to a total over sales, and moves no other. */
  lemma StoredSaleTotal(sell: Selling, saleId: Id, sale: Sale, f: Sale -> int, g: Sale -> int)
    requires saleId !in sell.sales
    requires forall k :: k in sell.sales ==> f(sell.sales[k]) == g(sell.sales[k])
    ensures SumMap(sell.sales[saleId := sale], g) == SumMap(sell.sales, f) + g(sale)
  {
    hide SumMap;
    SumMapInsert(sell.sales, saleId, sale, g);
    SumMapSame(sell.sales, f, g);
  }

  lemma DrawerAfterSale(sell: Selling, invoiceId: Id, invoice: Invoice, saleId: Id, sale: Sale, id: Id)
    requires SaleRefs(sell) && saleId !in sell.sales && invoiceId !in sell.invoices && sale.invoiceId == invoiceId
    ensures SumMap(sell.sales[saleId := sale], CashFromSale(id, sell.invoices[invoiceId := invoice]))
         == SumMap(sell.sales, CashFromSale(id, sell.invoices))
            + if sale.sessionId == Some(id) && sale.paymentMethod == "cash" then invoice.grandTotal else 0
  {
    hide SumMap;
    StoredSaleTotal(sell, saleId, sale, CashFromSale(id, sell.invoices),
                    CashFromSale(id, sell.invoices[invoiceId := invoice]));
  }

  lemma CustomerAfterSale(sell: Selling, invoiceId: Id, invoice: Invoice, saleId: Id, sale: Sale, id: Id)
    requires SaleRefs(sell) && saleId !in sell.sales && invoiceId !in sell.invoices && sale.invoiceId == invoiceId
    ensures SumMap(sell.sales[saleId := sale], SpentBy(id, sell.invoices[invoiceId := invoice]))
         == SumMap(sell.sales, SpentBy(id, sell.invoices)) + if sale.customerId == Some(id) then invoice.grandTotal else 0
    ensures SumMap(sell.sales[saleId := sale], VisitOf(id))
         == SumMap(sell.sales, VisitOf(id)) + if sale.customerId == Some(id) then 1 else 0
  {
    hide SumMap;
    StoredSaleTotal(sell, saleId, sale, SpentBy(id, sell.invoices), SpentBy(id, sell.invoices[invoiceId := invoice]));
    StoredSaleTotal(sell, saleId, sale, VisitOf(id), VisitOf(id));
  }

  /** What a sale that gets past its lines leaves in the selling dictionaries. */
  ghost predicate StoresSale(sell: Selling, t: Selling, c: Call, invoice: Invoice, sale: Sale)
  {
    && c.ids(1) !in sell.sales && c.ids(0) !in sell.invoices && sale.invoiceId == c.ids(0)
    && (sale.customerId.Some? ==> sale.customerId.value in sell.customers)
    && t == sell.(
      invoices := sell.invoices[c.ids(0) := invoice],
      sales := sell.sales[c.ids(1) := sale],
      cashSessions := SettleSession(sell.cashSessions, sale.sessionId, sale.paymentMethod, invoice.grandTotal).1,
      customers := t.customers)
  }

  lemma SaleKeepsDrawer(sell: Selling, t: Selling, c: Call, invoice: Invoice, sale: Sale, id: Id)
    requires TillFaithful(sell) && StoresSale(sell, t, c, invoice, sale) && id in t.cashSessions
    requires SettleSession(sell.cashSessions, sale.sessionId, sale.paymentMethod, invoice.grandTotal).0 != Refused
    ensures DrawerOk(t, id)
  {
    hide SumMap;
    assert DrawerOk(sell, id);
    DrawerAfterSale(sell, c.ids(0), invoice, c.ids(1), sale, id);
  }

  /** Stored under a session that does not exist, a sale concerns no drawer. */
  lemma SaleKeepsTill(sell: Selling, t: Selling, c: Call, invoice: Invoice, sale: Sale)
    requires TillFaithful(sell) && StoresSale(sell, t, c, invoice, sale) && t.customers.Keys == sell.customers.Keys
    requires SettleSession(sell.cashSessions, sale.sessionId, sale.paymentMethod, invoice.grandTotal).0 != Refused
    ensures TillFaithful(t)
  {
    hide SumMap, DrawerOk;
    forall id | id in t.cashSessions ensures DrawerOk(t, id) { SaleKeepsDrawer(sell, t, c, invoice, sale, id); }
  }

  /** After a stored sale the totals of its customer are faithful exactly when the visit was counted. */
  lemma SaleAndCustomer(sell: Selling, t: Selling, c: Call, invoice: Invoice, sale: Sale, gstin: Option<string>, id: Id)
    requires SaleRefs(sell) && CustomersFaithful(sell) && StoresSale(sell, t, c, invoice, sale) && id in sell.customers
    ensures t.customers == CountVisit(sell.customers, sale.customerId, c.ids(1), invoice.grandTotal, gstin) ==>
      CustomerOk(t, id)
    ensures t.customers == sell.customers ==> (CustomerOk(t, id) <==> sale.customerId != Some(id))
  {
    hide SumMap, SettleSession;
    assert CustomerOk(sell, id);
    CustomerAfterSale(sell, c.ids(0), invoice, c.ids(1), sale, id);
  }

  lemma ExchangeKeepsTill(sell: Selling, id: Id, x: Exchange)
    requires TillFaithful(sell) && id !in sell.exchanges
    requires SettleSession(sell.cashSessions, x.sessionId, x.paymentMethod, Signed(x.direction, x.balance)).0 == Accepted
    ensures TillFaithful(sell.(
              exchanges := sell.exchanges[id := x],
              cashSessions := SettleSession(sell.cashSessions, x.sessionId, x.paymentMethod,
                  Signed(x.direction, x.balance)).1))
  {
    hide SumMap;
    var t := sell.(exchanges := sell.exchanges[id := x],
                   cashSessions := SettleSession(sell.cashSessions, x.sessionId, x.paymentMethod,
                       Signed(x.direction, x.balance)).1);
    forall k | k in t.cashSessions ensures DrawerOk(t, k) {
      assert DrawerOk(sell, k);
      SumMapInsert(sell.exchanges, id, x, CashFromExchange(k));
    }
  }

  lemma OpeningKeepsTill(sell: Selling, c: Call, branch: Id, openingFloat: int)
    requires TillFaithful(sell) && c.ids(0) !in sell.cashSessions
    requires forall k :: k in sell.sales ==> sell.sales[k].sessionId != Some(c.ids(0))
    ensures TillFaithful(sell.(cashSessions := sell.cashSessions[c.ids(0) := NewSession(c, branch, openingFloat)]))
  {
    hide SumMap;
    var t := sell.(cashSessions := sell.cashSessions[c.ids(0) := NewSession(c, branch, openingFloat)]);
    forall id | id in t.cashSessions ensures DrawerOk(t, id) {
      if id == c.ids(0) {
        SumMapZero(sell.sales, CashFromSale(id, sell.invoices));
        SumMapZero(sell.exchanges, CashFromExchange(id));
      } else {
        assert DrawerOk(sell, id);
      }
    }
  }

  lemma ClosingKeepsTill(s: State, id: Id, closing: int)
    requires TillFaithful(s.selling)
    ensures TillFaithful(CloseSession(s, id, closing).state.selling)
  {
    hide SumMap;
    var t := CloseSession(s, id, closing).state.selling;
    forall k | k in t.cashSessions ensures DrawerOk(t, k) { assert DrawerOk(s.selling, k); }
  }

  lemma NewCustomerKeepsTill(sell: Selling, id: Id, customer: Customer)
    requires TillFaithful(sell) && id !in sell.customers
    ensures TillFaithful(sell.(customers := sell.customers[id := customer]))
  {
    hide SumMap;
    var t := sell.(customers := sell.customers[id := customer]);
    forall k | k in t.cashSessions ensures DrawerOk(t, k) { assert DrawerOk(sell, k); }
  }

  /** A new customer starts at zero, and no stored sale names it yet. */
  lemma NewCustomerIsFaithful(sell: Selling, id: Id, customer: Customer)
    requires SaleRefs(sell) && CustomersFaithful(sell) && id !in sell.customers
    requires customer.visitCount == 0 && customer.lifetimeValue == 0
    ensures CustomersFaithful(sell.(customers := sell.customers[id := customer]))
  {
    hide SumMap;
    var t := sell.(customers := sell.customers[id := customer]);
    forall k | k in t.customers ensures CustomerOk(t, k) {
      if k == id {
        SumMapZero(sell.sales, VisitOf(k));
        SumMapZero(sell.sales, SpentBy(k, sell.invoices));
      } else {
        assert CustomerOk(sell, k);
      }
    }
  }

  /** The selling dictionaries the till depends on. */
  lemma TillIgnoresRefunds(sell: Selling, t: Selling)
    requires TillFaithful(sell) && t == sell.(saleReturns := t.saleReturns, creditNotes := t.creditNotes)
    requires forall k :: k in t.saleReturns ==> t.saleReturns[k].creditNoteId in t.creditNotes
    ensures TillFaithful(t)
  {
    hide SumMap;
    forall k | k in t.cashSessions ensures DrawerOk(t, k) { assert DrawerOk(sell, k); }
  }

  lemma TakeBackKeepsTill(s: State, c: Call, branch: Id, saleId: Id, lines: seq<Line>, refund: int, mayApprove: bool)
    requires TillFaithful(s.selling)
    requires TakeBack(s, c, branch, saleId, lines, refund, mayApprove).verdict == Accepted
    ensures TillFaithful(TakeBack(s, c, branch, saleId, lines, refund, mayApprove).state.selling)
  {
    hide Map, FirstFault, CustomerCredit, DrawerOk, CustomerOk;
    TillIgnoresRefunds(s.selling, TakeBack(s, c, branch, saleId, lines, refund, mayApprove).state.selling);
  }

  lemma ApproveKeepsTill(s: State, saleReturnId: Id)
    requires TillFaithful(s.selling)
    ensures TillFaithful(Approve(s, saleReturnId).state.selling)
    ensures Approve(s, saleReturnId).verdict == Crashed ==> Approve(s, saleReturnId).state == s
  {
    hide DrawerOk, CustomerOk;
    TillIgnoresRefunds(s.selling, Approve(s, saleReturnId).state.selling);
  }

  /** A sale that is not refused leaves every drawer faithful, even when it crashes half-way. */
  lemma SellKeepsTill(s: State, c: Call, branch: Id, customerId: Option<Id>, gstin: Option<string>, lines: seq<Line>,
      payment: int, method_: string, sessionId: Option<Id>)
    requires TillFaithful(s.selling) && c.ids(1) !in s.selling.sales && c.ids(0) !in s.selling.invoices
    requires Sell(s, c, branch, customerId, gstin, lines, payment, method_, sessionId).verdict != Refused
    ensures TillFaithful(Sell(s, c, branch, customerId, gstin, lines, payment, method_, sessionId).state.selling)
  {
    hide Sum, Map, FirstFault, SettleSession, TillFaithful;
    var t := Sell(s, c, branch, customerId, gstin, lines, payment, method_, sessionId).state.selling;
    if t != s.selling {
      var invoice := SaleInvoiceOf(s.counters, CatalogueOf(s), s.registry.branches, c, branch, gstin, lines);
      var sale := SaleOf(CatalogueOf(s), c, branch, customerId, lines, payment, method_, sessionId);
      SaleKeepsTill(s.selling, t, c, invoice, sale);
    }
  }

  /** It leaves every customer faithful exactly when it counts the customer of a sale it stores. */
  lemma SellAndCustomers(s: State, c: Call, branch: Id, customerId: Option<Id>, gstin: Option<string>, lines: seq<Line>,
      payment: int, method_: string, sessionId: Option<Id>)
    requires SaleRefs(s.selling) && CustomersFaithful(s.selling)
    requires c.ids(1) !in s.selling.sales && c.ids(0) !in s.selling.invoices
    ensures var o := Sell(s, c, branch, customerId, gstin, lines, payment, method_, sessionId);
            var counted := o.verdict == Accepted || o.state.selling.sales == s.selling.sales || customerId.None?;
            CustomersFaithful(o.state.selling) <==> counted
  {
    hide Sum, Map, FirstFault, SettleSession, CustomerOk, SaleRefs, CountVisit;
    var t := Sell(s, c, branch, customerId, gstin, lines, payment, method_, sessionId).state.selling;
    if t != s.selling {
      var invoice := SaleInvoiceOf(s.counters, CatalogueOf(s), s.registry.branches, c, branch, gstin, lines);
      var sale := SaleOf(CatalogueOf(s), c, branch, customerId, lines, payment, method_, sessionId);
      CountedKeys(s.selling.customers, customerId, c.ids(1), invoice.grandTotal, gstin);
      forall id | id in s.selling.customers { SaleAndCustomer(s.selling, t, c, invoice, sale, gstin, id); }
    }
  }

  lemma CountedKeys(customers: map<Id, Customer>, customerId: Option<Id>, saleId: Id, total: int, gstin: Option<string>)
    ensures CountVisit(customers, customerId, saleId, total, gstin).Keys == customers.Keys
  {
  }

  lemma SwapKeepsTill(s: State, c: Call, branch: Id, saleId: Id, lines: seq<Line>, replacements: seq<Line>, method_: string,
                      sessionId: Option<Id>)
    requires TillFaithful(s.selling) && c.ids(0) !in s.selling.exchanges
    ensures TillFaithful(Swap(s, c, branch, saleId, lines, replacements, method_, sessionId).state.selling)
  {
    hide Sum, Map, FirstFault, SettleSession, TillFaithful;
    if Swap(s, c, branch, saleId, lines, replacements, method_, sessionId).verdict == Accepted {
      var x := ExchangeOf(s, c, branch, saleId, s.selling.sales[saleId], lines, replacements, method_, sessionId);
      ExchangeKeepsTill(s.selling, c.ids(0), x);
    }
  }
}
