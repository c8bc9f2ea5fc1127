/**
 * What every run makes of a status: it is always the one the latest accepted request gave it, whatever crashes and
 * restarts come between.
 */
module Lifecycles {
  import opened Folds
  import opened Inventory
  import opened Entities
  import opened Numbering
  import opened StateModel
  import opened BatchTracking
  import opened Handlers
  import opened Frames
  import opened Consistency
  import opened History
  import opened Crashes
  import opened Middleware
  import opened Runs

  /** The status a request gives to what is being followed, if it is accepted. */
  type Mark<V> = (Call, Request) -> Option<V>

  /** A status as it can be read off the state. */
  type Reading<V> = State -> Option<V>

  function Marked<V>(mark: Option<V>, before: Option<V>): Option<V> { if mark.Some? then mark else before }

  ghost predicate Serves(w: World, e: Event) { e.Arrived? && Serve(w.mem, e.call, e.request).verdict == Accepted }

  ghost function MarkOf<V>(w: World, e: Event, mark: Mark<V>): Option<V>
  {
    if Serves(w, e) then mark(e.call, e.request) else None
  }

  /** The latest accepted request before boundary `i` that gave a status gave this one. */
  ghost predicate LastMark<V>(ws: seq<World>, es: seq<Event>, i: nat, mark: Mark<V>, v: V)
    requires i <= |es| < |ws|
  {
    exists j :: 0 <= j < i && MarkOf(ws[j], es[j], mark) == Some(v) && forall k :: j < k < i ==>
        MarkOf(ws[k], es[k], mark) == None
  }

  lemma LastMarkStep<V>(ws: seq<World>, es: seq<Event>, i: nat, mark: Mark<V>, v: V)
    requires i < |es| < |ws|
    ensures LastMark(ws, es, i + 1, mark, v) <==>
      (MarkOf(ws[i], es[i], mark) == Some(v) || (MarkOf(ws[i], es[i], mark) == None && LastMark(ws, es, i, mark, v)))
  {
    hide MarkOf;
    if MarkOf(ws[i], es[i], mark) == Some(v) {
      assert LastMark(ws, es, i + 1, mark, v);
    } else if MarkOf(ws[i], es[i], mark) == None && LastMark(ws, es, i, mark, v) {
      var j :| 0 <= j < i && MarkOf(ws[j], es[j], mark) == Some(v) && forall k :: j < k < i ==>
                   MarkOf(ws[k], es[k], mark) == None;
      assert forall k :: j < k < i + 1 ==> MarkOf(ws[k], es[k], mark) == None;
    }
  }

  /** An accepted request leaves the status it marks, or the one there was. */
  ghost predicate Follows<V(!new)>(read: Reading<V>, mark: Mark<V>)
  {
    && read(EMPTY) == None
    && (forall s, t :: Ahead(s, t) ==> read(s) == read(t))
    && forall s: State, c: Call, r: Request :: FreshIds(s, c.ids) && Apply(s, c, r).verdict == Accepted ==>
         read(Apply(s, c, r).state) == Marked(mark(c, r), read(s))
  }

  lemma StepFollows<V(!new)>(w: World, e: Event, w': World, read: Reading<V>, mark: Mark<V>)
    requires Follows(read, mark) && Sound(w) && Step(w, e, w')
    ensures read(w'.mem) == Marked(MarkOf(w, e, mark), read(w.mem))
  {
    hide Consistent, FreshIds, Restore, Apply, ValidPayload, Blocked, SnapshotOf, Ahead;
    if e.Arrived? && Serve(w.mem, e.call, e.request).verdict == Crashed { CrashLeaves(w.mem, e.call, e.request); }
  }

  /** Over every run a status is exactly the one the latest accepted request gave it. */
  lemma {:induction false} RunsFollow<V(!new)>(ws: seq<World>, es: seq<Event>, i: nat, read: Reading<V>,
                                               mark: Mark<V>, v: V)
    requires Follows(read, mark) && IsRun(ws, es) && i < |ws|
    ensures read(ws[i].mem) == Some(v) <==> LastMark(ws, es, i, mark, v)
  {
    hide Consistent, Step, Ahead, MarkOf, Follows;
    if i == 0 {
      assert read(EMPTY) == None by { StartsUnread(read, mark); }
    } else {
      RunsFollow(ws, es, i - 1, read, mark, v);
      RunsStayConsistent(ws, es, i - 1);
      StepFollows(ws[i - 1], es[i - 1], ws[i], read, mark);
      LastMarkStep(ws, es, i - 1, mark, v);
    }
  }

  lemma StartsUnread<V(!new)>(read: Reading<V>, mark: Mark<V>)
    requires Follows(read, mark)
    ensures read(EMPTY) == None
  {
    hide FreshIds, Apply;
  }

  // ---- tenants ----

  function TenantStatus(t: Id): Reading<bool>
  {
    (s: State) => if t in s.registry.tenants then Some(s.registry.tenants[t].suspended) else None
  }

  /** A tenant is created active; a change of status suspends or reactivates it. */
  function TenantMark(t: Id): Mark<bool>
  {
    (c: Call, r: Request) =>
      match r
      case CreateTenant => if c.ids(0) == t then Some(false) else None
      case SetTenantStatus(target, suspended) => if target == t then Some(suspended) else None
      case _ => None
  }

  lemma RegistryAndTenants(s: State, c: Call, r: Request, t: Id)
    requires IsRegistry(r) && ApplyRegistry(s, c, r).verdict == Accepted
    ensures TenantStatus(t)(ApplyRegistry(s, c, r).state)
         == Marked(TenantMark(t)(c, r), TenantStatus(t)(s))
  {
  }

  lemma OthersAndRegistry(s: State, c: Call, r: Request)
    requires !IsRegistry(r) && !IsParty(r) && !IsBranch(r)
    ensures Apply(s, c, r).state.registry == s.registry
  {
    hide ApplyRegistry, ApplyParty, ApplyBranch, ApplyOrdering, ApplyBilling, ApplyDispute, ApplyStock, ApplySelling,
        ApplyRefund;
    if IsOrdering(r) { OrderingFrame(s, c, r); }
    else if IsBilling(r) { BillingFrame(s, c, r); }
    else if IsDispute(r) { DisputeFrame(s, c, r); }
    else if IsStock(r) { StockFrame(s, c, r); }
    else if IsSelling(r) { SellingFrame(s, c, r); }
    else { RefundFrame(s, c, r); }
  }

  lemma PartyAndRegistry(s: State, c: Call, r: Request)
    requires IsParty(r) || IsBranch(r)
    ensures var reg := Apply(s, c, r).state.registry;
            reg == if IsParty(r) then s.registry.(products := reg.products, suppliers := reg.suppliers)
                   else s.registry.(catalogOverrides := reg.catalogOverrides, reorderRules := reg.reorderRules)
  {
    hide ApplyRegistry, ApplyOrdering, ApplyBilling, ApplyDispute, ApplyStock, ApplySelling, ApplyRefund;
  }

  lemma TenantsFollow(t: Id)
    ensures Follows(TenantStatus(t), TenantMark(t))
  {
    hide FreshIds, Apply;
    forall s, c, r | Apply(s, c, r).verdict == Accepted
      ensures TenantStatus(t)(Apply(s, c, r).state)
           == Marked(TenantMark(t)(c, r), TenantStatus(t)(s))
    {
      TenantFollows(s, c, r, t);
    }
    forall s, s' | Ahead(s, s') ensures TenantStatus(t)(s) == TenantStatus(t)(s') { AheadKeeps(s, s'); }
  }

  /** A crash leaves the registry, purchasing, drawers, customers and returns alone. */
  lemma AheadKeeps(s: State, t: State)
    requires Ahead(s, t)
    ensures t.registry == s.registry && t.purchasing == s.purchasing && t.selling.cashSessions == s.selling.cashSessions
    ensures t.selling.customers == s.selling.customers && t.selling.saleReturns == s.selling.saleReturns
  {
    hide Later;
  }

  lemma TenantFollows(s: State, c: Call, r: Request, t: Id)
    requires Apply(s, c, r).verdict == Accepted
    ensures TenantStatus(t)(Apply(s, c, r).state)
         == Marked(TenantMark(t)(c, r), TenantStatus(t)(s))
  {
    hide ApplyRegistry, ApplyParty, ApplyBranch, ApplyOrdering, ApplyBilling, ApplyDispute, ApplyStock, ApplySelling,
        ApplyRefund;
    if IsRegistry(r) { RegistryAndTenants(s, c, r, t); }
    else if IsParty(r) || IsBranch(r) { PartyAndRegistry(s, c, r); }
    else { OthersAndRegistry(s, c, r); }
  }

  // ---- the catalogue ----

  function OverrideAt(branch: Id, productId: Id): Reading<CatalogOverride>
  {
    (s: State) => if (branch, productId) in s.registry.catalogOverrides
        then Some(s.registry.catalogOverrides[(branch, productId)]) else None
  }

  function OverrideMark(branch: Id, productId: Id): Mark<CatalogOverride>
  {
    (c: Call, r: Request) =>
      if r.SaveOverride? && r.branchId == branch && r.productId == productId
      then Some(CatalogOverride(c.tenantId, branch, productId, r.price, r.active)) else None
  }

  function RuleAt(branch: Id, productId: Id): Reading<ReorderRule>
  {
    (s: State) => if (branch, productId) in s.registry.reorderRules
        then Some(s.registry.reorderRules[(branch, productId)]) else None
  }

  function RuleMark(branch: Id, productId: Id): Mark<ReorderRule>
  {
    (c: Call, r: Request) =>
      if r.SaveReorderRule? && r.branchId == branch && r.productId == productId
      then Some(ReorderRule(c.tenantId, branch, productId, r.minStock, r.targetStock)) else None
  }

  function ProductAt(k: Id): Reading<Product>
  {
    (s: State) => if k in s.registry.products then Some(s.registry.products[k]) else None
  }

  function ProductMark(k: Id): Mark<Product>
  {
    (c: Call, r: Request) =>
      if r.CreateProduct? && c.ids(0) == k then Some(Product(c.tenantId, r.sellingPrice, r.taxRate)) else None
  }

  function SupplierAt(k: Id): Reading<Supplier>
  {
    (s: State) => if k in s.registry.suppliers then Some(s.registry.suppliers[k]) else None
  }

  function SupplierMark(k: Id): Mark<Supplier>
  {
    (c: Call, r: Request) =>
      if r.CreateSupplier? && c.ids(0) == k then Some(Supplier(c.tenantId, r.name, r.gstin, r.termsDays)) else None
  }

  /** What an accepted request makes of the overrides, rules, products and suppliers. */
  lemma CatalogueFollows(s: State, c: Call, r: Request, j: Id, k: Id)
    requires Apply(s, c, r).verdict == Accepted
    ensures var t := Apply(s, c, r).state;
            && OverrideAt(j, k)(t) == Marked(OverrideMark(j, k)(c, r), OverrideAt(j, k)(s))
            && RuleAt(j, k)(t) == Marked(RuleMark(j, k)(c, r), RuleAt(j, k)(s))
            && ProductAt(k)(t) == Marked(ProductMark(k)(c, r), ProductAt(k)(s))
            && SupplierAt(k)(t) == Marked(SupplierMark(k)(c, r), SupplierAt(k)(s))
  {
    hide ApplyRegistry, ApplyParty, ApplyBranch, ApplyOrdering, ApplyBilling, ApplyDispute, ApplyStock, ApplySelling,
        ApplyRefund;
    if IsRegistry(r) { RegistryAndCatalogue(s, c, r); }
    else if IsParty(r) { PartyAndCatalogue(s, c, r, k); }
    else if IsBranch(r) { BranchAndCatalogue(s, c, r, j, k); }
    else { OthersAndRegistry(s, c, r); }
  }

  lemma RegistryAndCatalogue(s: State, c: Call, r: Request)
    requires IsRegistry(r)
    ensures var reg := ApplyRegistry(s, c, r).state.registry;
            reg == s.registry.(tenants := reg.tenants, branches := reg.branches)
  {
  }

  lemma PartyAndCatalogue(s: State, c: Call, r: Request, k: Id)
    requires IsParty(r)
    ensures var t := ApplyParty(s, c, r).state;
            && t.registry == s.registry.(products := t.registry.products, suppliers := t.registry.suppliers)
            && ProductAt(k)(t) == Marked(ProductMark(k)(c, r), ProductAt(k)(s))
            && SupplierAt(k)(t) == Marked(SupplierMark(k)(c, r), SupplierAt(k)(s))
  {
  }

  lemma BranchAndCatalogue(s: State, c: Call, r: Request, j: Id, k: Id)
    requires IsBranch(r) && ApplyBranch(s, c, r).verdict == Accepted
    ensures var t := ApplyBranch(s, c, r).state;
            && t.registry == s.registry.(catalogOverrides := t.registry.catalogOverrides,
                                         reorderRules := t.registry.reorderRules)
            && OverrideAt(j, k)(t) == Marked(OverrideMark(j, k)(c, r), OverrideAt(j, k)(s))
            && RuleAt(j, k)(t) == Marked(RuleMark(j, k)(c, r), RuleAt(j, k)(s))
  {
    hide CloseSession, OpenSession;
    if r.CloseCashSession? { ClosingLeavesRegistry(s, r.sessionId, r.closing); }
    if r.OpenCashSession? { OpeningLeavesRegistry(s, c, r.branchId, r.openingFloat); }
  }

  lemma ClosingLeavesRegistry(s: State, id: Id, closing: int)
    ensures CloseSession(s, id, closing).state.registry == s.registry
  {
  }

  lemma OpeningLeavesRegistry(s: State, c: Call, branch: Id, openingFloat: int)
    ensures OpenSession(s, c, branch, openingFloat).state.registry == s.registry
  {
  }

  lemma CatalogueIsFollowed(j: Id, k: Id)
    ensures Follows(OverrideAt(j, k), OverrideMark(j, k)) && Follows(RuleAt(j, k), RuleMark(j, k))
    ensures Follows(ProductAt(k), ProductMark(k)) && Follows(SupplierAt(k), SupplierMark(k))
  {
    hide FreshIds, Apply;
    forall s, c, r | Apply(s, c, r).verdict == Accepted
      ensures var t := Apply(s, c, r).state;
              && OverrideAt(j, k)(t) == Marked(OverrideMark(j, k)(c, r), OverrideAt(j, k)(s))
              && RuleAt(j, k)(t) == Marked(RuleMark(j, k)(c, r), RuleAt(j, k)(s))
              && ProductAt(k)(t) == Marked(ProductMark(k)(c, r), ProductAt(k)(s))
              && SupplierAt(k)(t) == Marked(SupplierMark(k)(c, r), SupplierAt(k)(s))
    {
      CatalogueFollows(s, c, r, j, k);
    }
    forall s, t | Ahead(s, t) ensures t.registry == s.registry { AheadKeeps(s, t); }
  }

  // ---- orders and disputes ----

  function OrderStatus(k: Id): Reading<Approval>
  {
    (s: State) => if k in s.purchasing.purchaseOrders then Some(s.purchasing.purchaseOrders[k].status) else None
  }

  /** An order is placed without approval, submitted for it, and then approved or rejected. */
  function OrderMark(k: Id): Mark<Approval>
  {
    (c: Call, r: Request) =>
      match r
      case CreateOrder(_, _, _) => if c.ids(0) == k then Some(NotRequested) else None
      case SubmitOrder(_, order) => if order == k then Some(PendingApproval) else None
      case DecideOrder(_, order, approve) =>
        if order == k then Some(if approve then Approved else Rejected) else None
      case _ => None
  }

  /** Branch, supplier and lines of an order. */
  function OrderContents(k: Id): Reading<(Id, Id, seq<OrderLine>)>
  {
    (s: State) =>
      if k in s.purchasing.purchaseOrders
      then var o := s.purchasing.purchaseOrders[k]; Some((o.branchId, o.supplierId, o.lines))
      else None
  }

  function PlacingMark(k: Id): Mark<(Id, Id, seq<OrderLine>)>
  {
    (c: Call, r: Request) =>
      if r.CreateOrder? && c.ids(0) == k then Some((r.branchId, r.supplierId, r.orderLines)) else None
  }

  function DisputeOpen(k: Id): Reading<bool>
  {
    (s: State) => if k in s.purchasing.vendorDisputes then Some(s.purchasing.vendorDisputes[k].open) else None
  }

  function DisputeMark(k: Id): Mark<bool>
  {
    (c: Call, r: Request) =>
      match r
      case OpenDispute(_, _, _, _) => if c.ids(0) == k then Some(true) else None
      case ResolveDispute(_, dispute) => if dispute == k then Some(false) else None
      case _ => None
  }

  lemma OrderingFollows(s: State, c: Call, r: Request, k: Id)
    requires IsOrdering(r) && ApplyOrdering(s, c, r).verdict == Accepted
    ensures OrderStatus(k)(ApplyOrdering(s, c, r).state) == Marked(OrderMark(k)(c, r), OrderStatus(k)(s))
    ensures OrderContents(k)(ApplyOrdering(s, c, r).state) == Marked(PlacingMark(k)(c, r), OrderContents(k)(s))
  {
    hide StoreLots, LotsMatch, Map;
  }

  lemma DisputesFollow(s: State, c: Call, r: Request, k: Id)
    requires IsDispute(r) && ApplyDispute(s, c, r).verdict == Accepted
    ensures DisputeOpen(k)(ApplyDispute(s, c, r).state)
         == Marked(DisputeMark(k)(c, r), DisputeOpen(k)(s))
  {
  }

  /** Orders are touched by ordering requests only, and disputes by dispute requests only. */
  lemma OthersLeaveOrders(s: State, c: Call, r: Request)
    requires !IsOrdering(r) && !IsDispute(r)
    ensures var p := Apply(s, c, r).state.purchasing;
            p.purchaseOrders == s.purchasing.purchaseOrders && p.vendorDisputes == s.purchasing.vendorDisputes
  {
    hide ApplyRegistry, ApplyParty, ApplyBranch, ApplyStock, ApplySelling, ApplyRefund, InvoiceReceipt, SendBack, Pay;
    if IsRegistry(r) { RegistryFrame(s, c, r); }
    else if IsParty(r) { PartyFrame(s, c, r); }
    else if IsBranch(r) { BranchFrame(s, c, r); }
    else if IsStock(r) { StockFrame(s, c, r); }
    else if IsSelling(r) { SellingFrame(s, c, r); }
    else if IsRefund(r) { RefundFrame(s, c, r); }
  }

  lemma OrdersFollow(s: State, c: Call, r: Request, k: Id)
    requires Apply(s, c, r).verdict == Accepted
    ensures OrderStatus(k)(Apply(s, c, r).state) == Marked(OrderMark(k)(c, r), OrderStatus(k)(s))
    ensures OrderContents(k)(Apply(s, c, r).state) == Marked(PlacingMark(k)(c, r), OrderContents(k)(s))
    ensures DisputeOpen(k)(Apply(s, c, r).state)
         == Marked(DisputeMark(k)(c, r), DisputeOpen(k)(s))
  {
    hide ApplyRegistry, ApplyParty, ApplyBranch, ApplyOrdering, ApplyBilling, ApplyDispute, ApplyStock, ApplySelling,
        ApplyRefund;
    if IsOrdering(r) {
      OrderingFollows(s, c, r, k);
      OrderingFrame(s, c, r);
    } else if IsDispute(r) {
      DisputesFollow(s, c, r, k);
      DisputeFrame(s, c, r);
    } else {
      OthersLeaveOrders(s, c, r);
    }
  }

  lemma OrdersAreFollowed(k: Id)
    ensures Follows(OrderStatus(k), OrderMark(k)) && Follows(DisputeOpen(k), DisputeMark(k))
    ensures Follows(OrderContents(k), PlacingMark(k))
  {
    hide FreshIds, Apply;
    forall s, c, r | Apply(s, c, r).verdict == Accepted
      ensures OrderStatus(k)(Apply(s, c, r).state) == Marked(OrderMark(k)(c, r), OrderStatus(k)(s))
      ensures OrderContents(k)(Apply(s, c, r).state) == Marked(PlacingMark(k)(c, r), OrderContents(k)(s))
      ensures DisputeOpen(k)(Apply(s, c, r).state)
           == Marked(DisputeMark(k)(c, r), DisputeOpen(k)(s))
    {
      OrdersFollow(s, c, r, k);
    }
    forall s, t | Ahead(s, t) ensures t.purchasing == s.purchasing { AheadKeeps(s, t); }
  }

  // ---- drawers and refunds ----

  function DrawerOpen(k: Id): Reading<bool>
  {
    (s: State) => if k in s.selling.cashSessions then Some(s.selling.cashSessions[k].open) else None
  }

  function DrawerMark(k: Id): Mark<bool>
  {
    (c: Call, r: Request) =>
      match r
      case OpenCashSession(_, _) => if c.ids(0) == k then Some(true) else None
      case CloseCashSession(session, _) => if session == k then Some(false) else None
      case _ => None
  }

  function DrawerFloat(k: Id): Reading<int>
  {
    (s: State) => if k in s.selling.cashSessions then Some(s.selling.cashSessions[k].openingFloat) else None
  }

  function FloatMark(k: Id): Mark<int>
  {
    (c: Call, r: Request) => if r.OpenCashSession? && c.ids(0) == k then Some(r.openingFloat) else None
  }

  function DrawerClosing(k: Id): Reading<int>
  {
    (s: State) => if k in s.selling.cashSessions then s.selling.cashSessions[k].closing else None
  }

  function ClosingMark(k: Id): Mark<int>
  {
    (c: Call, r: Request) => if r.CloseCashSession? && r.sessionId == k then Some(r.closing) else None
  }

  /** What is followed of a drawer: whether it is open, its float and its closing amount. */
  function DrawerReadings(s: State, k: Id): (Option<bool>, Option<int>, Option<int>)
  {
    (DrawerOpen(k)(s), DrawerFloat(k)(s), DrawerClosing(k)(s))
  }

  function DrawerMarks(c: Call, r: Request, k: Id): (Option<bool>, Option<int>, Option<int>)
  {
    (DrawerMark(k)(c, r), FloatMark(k)(c, r), ClosingMark(k)(c, r))
  }

  predicate DrawerFollows(s: State, t: State, c: Call, r: Request, k: Id)
  {
    var marks, before := DrawerMarks(c, r, k), DrawerReadings(s, k);
    DrawerReadings(t, k) == (Marked(marks.0, before.0), Marked(marks.1, before.1), Marked(marks.2, before.2))
  }

  function RefundApproved(k: Id): Reading<bool>
  {
    (s: State) => if k in s.selling.saleReturns then Some(s.selling.saleReturns[k].refundApproved) else None
  }

  /** A return starts out approved if the clerk may approve refunds, and is approved later otherwise. */
  function RefundMark(k: Id): Mark<bool>
  {
    (c: Call, r: Request) =>
      match r
      case ReturnSale(_, _, _, _, mayApprove) => if c.ids(0) == k then Some(mayApprove) else None
      case ApproveRefund(saleReturn) => if saleReturn == k then Some(true) else None
      case _ => None
  }

  lemma OpeningFollows(s: State, c: Call, r: Request, k: Id)
    requires r.OpenCashSession? && c.ids(0) !in s.selling.cashSessions
    ensures DrawerFollows(s, OpenSession(s, c, r.branchId, r.openingFloat).state, c, r, k)
  {
  }

  lemma ClosingFollows(s: State, c: Call, r: Request, k: Id)
    requires r.CloseCashSession? && CloseSession(s, r.sessionId, r.closing).verdict == Accepted
    ensures DrawerFollows(s, CloseSession(s, r.sessionId, r.closing).state, c, r, k)
  {
  }

  lemma BranchAndDrawers(s: State, c: Call, r: Request, k: Id)
    requires IsBranch(r) && ApplyBranch(s, c, r).verdict == Accepted && Unused(s, c.ids(0))
    ensures DrawerFollows(s, ApplyBranch(s, c, r).state, c, r, k)
  {
    hide OpenSession, CloseSession;
    if r.OpenCashSession? {
      hide DrawerFollows;
      OpeningFollows(s, c, r, k);
    } else if r.CloseCashSession? {
      hide DrawerFollows;
      ClosingFollows(s, c, r, k);
    }
  }

  lemma SettlingKeepsOpen(sessions: map<Id, CashSession>, session: Option<Id>, method_: string, amount: int, k: Id)
    ensures var after := SettleSession(sessions, session, method_, amount).1;
            && (k in after <==> k in sessions)
            && (k in sessions ==> after[k].open == sessions[k].open && after[k].openingFloat == sessions[k].openingFloat
                                  && after[k].closing == sessions[k].closing)
  {
  }

  /** Sales and exchanges open and close no drawer and approve no refund. */
  lemma SaleAndDrawers(s: State, c: Call, r: Request, k: Id)
    requires r.CreateSale?
    ensures var t := ApplySelling(s, c, r).state;
            && DrawerReadings(t, k) == DrawerReadings(s, k) && DrawerMarks(c, r, k) == (None, None, None)
            && t.selling.saleReturns == s.selling.saleReturns
  {
    hide Map, FirstFault, SaleInvoiceOf, SaleOf, CountVisit, PricingFault, Advance, SettleSession;
    forall amount { SettlingKeepsOpen(s.selling.cashSessions, r.cashSessionId, r.paymentMethod, amount, k); }
  }

  lemma ExchangeAndDrawers(s: State, c: Call, r: Request, k: Id)
    requires r.ExchangeSale?
    ensures var t := ApplySelling(s, c, r).state;
            && DrawerReadings(t, k) == DrawerReadings(s, k) && DrawerMarks(c, r, k) == (None, None, None)
            && t.selling.saleReturns == s.selling.saleReturns
  {
    hide Map, FirstFault, PricingFault, ExchangeFault, ExchangeOf, SettleSession;
    forall amount { SettlingKeepsOpen(s.selling.cashSessions, r.cashSessionId, r.paymentMethod, amount, k); }
  }

  lemma RefundAndReturns(s: State, c: Call, r: Request, k: Id)
    requires IsRefund(r) && ApplyRefund(s, c, r).verdict == Accepted
    ensures RefundApproved(k)(ApplyRefund(s, c, r).state)
         == Marked(RefundMark(k)(c, r), RefundApproved(k)(s))
  {
    hide Map, FirstFault, ReturnFault, CustomerCredit;
  }

  lemma OthersLeaveDrawers(s: State, c: Call, r: Request)
    requires !IsBranch(r) && !IsSelling(r) && !IsRefund(r)
    ensures var t := Apply(s, c, r).state.selling;
            t.cashSessions == s.selling.cashSessions && t.saleReturns == s.selling.saleReturns
  {
    hide ApplyRegistry, ApplyParty, ApplyOrdering, ApplyBilling, ApplyDispute, ApplyStock;
    if IsRegistry(r) { RegistryFrame(s, c, r); }
    else if IsParty(r) { PartyFrame(s, c, r); }
    else if IsOrdering(r) { OrderingFrame(s, c, r); }
    else if IsBilling(r) { BillingFrame(s, c, r); }
    else if IsDispute(r) { DisputeFrame(s, c, r); }
    else { StockFrame(s, c, r); }
  }

  lemma OthersAndDrawers(s: State, c: Call, r: Request, k: Id)
    requires !IsBranch(r) && !IsSelling(r)
    ensures DrawerReadings(Apply(s, c, r).state, k) == DrawerReadings(s, k) && DrawerMarks(c, r, k) == (None, None, None)
  {
    hide ApplyRegistry, ApplyParty, ApplyBranch, ApplyOrdering, ApplyBilling, ApplyDispute, ApplyStock, ApplySelling,
        ApplyRefund;
    if IsRefund(r) { RefundFrame(s, c, r); } else { OthersLeaveDrawers(s, c, r); }
  }

  lemma DrawersFollow(s: State, c: Call, r: Request, k: Id)
    requires Apply(s, c, r).verdict == Accepted && FreshIds(s, c.ids)
    ensures DrawerFollows(s, Apply(s, c, r).state, c, r, k)
  {
    hide ApplyRegistry, ApplyParty, ApplyBranch, ApplyOrdering, ApplyBilling, ApplyDispute, ApplyStock, ApplySelling,
        ApplyRefund, DrawerReadings, DrawerMarks, Unused;
    assert Unused(s, c.ids(0));
    if IsBranch(r) { BranchAndDrawers(s, c, r, k); }
    else if r.CreateSale? { SaleAndDrawers(s, c, r, k); }
    else if r.ExchangeSale? { ExchangeAndDrawers(s, c, r, k); }
    else { OthersAndDrawers(s, c, r, k); }
  }

  lemma RefundsFollow(s: State, c: Call, r: Request, k: Id)
    requires Apply(s, c, r).verdict == Accepted
    ensures RefundApproved(k)(Apply(s, c, r).state) == Marked(RefundMark(k)(c, r), RefundApproved(k)(s))
  {
    hide ApplyRegistry, ApplyParty, ApplyBranch, ApplyOrdering, ApplyBilling, ApplyDispute, ApplyStock, ApplySelling,
        ApplyRefund;
    if IsBranch(r) { BranchFrame(s, c, r); }
    else if r.CreateSale? { SaleAndDrawers(s, c, r, k); }
    else if r.ExchangeSale? { ExchangeAndDrawers(s, c, r, k); }
    else if IsRefund(r) { RefundAndReturns(s, c, r, k); }
    else { OthersLeaveDrawers(s, c, r); }
  }

  lemma DrawersAreFollowed(k: Id)
    ensures Follows(DrawerOpen(k), DrawerMark(k)) && Follows(DrawerFloat(k), FloatMark(k))
    ensures Follows(DrawerClosing(k), ClosingMark(k))
  {
    hide FreshIds, Apply;
    forall s: State, c: Call, r: Request | FreshIds(s, c.ids) && Apply(s, c, r).verdict == Accepted
      ensures DrawerFollows(s, Apply(s, c, r).state, c, r, k)
    {
      DrawersFollow(s, c, r, k);
    }
    forall s, t | Ahead(s, t) ensures t.selling.cashSessions == s.selling.cashSessions { AheadKeeps(s, t); }
  }

  lemma RefundsAreFollowed(k: Id)
    ensures Follows(RefundApproved(k), RefundMark(k))
  {
    hide FreshIds, Apply;
    forall s, c, r | Apply(s, c, r).verdict == Accepted
      ensures RefundApproved(k)(Apply(s, c, r).state) == Marked(RefundMark(k)(c, r), RefundApproved(k)(s))
    {
      RefundsFollow(s, c, r, k);
    }
    forall s, t | Ahead(s, t) ensures t.selling.saleReturns == s.selling.saleReturns { AheadKeeps(s, t); }
  }

  // ---- over every run ----

  /** A tenant is suspended, or active, exactly since its latest accepted creation or change of status said so. */
  lemma RunsSetTenants(ws: seq<World>, es: seq<Event>, i: nat, t: Id, suspended: bool)
    requires IsRun(ws, es) && i < |ws|
    ensures TenantStatus(t)(ws[i].mem) == Some(suspended) <==> LastMark(ws, es, i, TenantMark(t), suspended)
  {
    hide Follows, IsRun, LastMark;
    TenantsFollow(t);
    RunsFollow(ws, es, i, TenantStatus(t), TenantMark(t), suspended);
  }

  /** The override of a branch and product is exactly the one last saved. */
  lemma RunsKeepOverrides(ws: seq<World>, es: seq<Event>, i: nat, j: Id, k: Id, o: CatalogOverride)
    requires IsRun(ws, es) && i < |ws|
    ensures OverrideAt(j, k)(ws[i].mem) == Some(o) <==> LastMark(ws, es, i, OverrideMark(j, k), o)
  {
    hide Follows, IsRun, LastMark;
    CatalogueIsFollowed(j, k);
    RunsFollow(ws, es, i, OverrideAt(j, k), OverrideMark(j, k), o);
  }

  /** So is the reorder rule. */
  lemma RunsKeepRules(ws: seq<World>, es: seq<Event>, i: nat, j: Id, k: Id, r: ReorderRule)
    requires IsRun(ws, es) && i < |ws|
    ensures RuleAt(j, k)(ws[i].mem) == Some(r) <==> LastMark(ws, es, i, RuleMark(j, k), r)
  {
    hide Follows, IsRun, LastMark;
    CatalogueIsFollowed(j, k);
    RunsFollow(ws, es, i, RuleAt(j, k), RuleMark(j, k), r);
  }

  /** A product is stored exactly as its creation asked, and never changes. */
  lemma RunsKeepProducts(ws: seq<World>, es: seq<Event>, i: nat, k: Id, p: Product)
    requires IsRun(ws, es) && i < |ws|
    ensures ProductAt(k)(ws[i].mem) == Some(p) <==> LastMark(ws, es, i, ProductMark(k), p)
  {
    hide Follows, IsRun, LastMark;
    CatalogueIsFollowed("", k);
    RunsFollow(ws, es, i, ProductAt(k), ProductMark(k), p);
  }

  /** So is a supplier. */
  lemma RunsKeepSuppliers(ws: seq<World>, es: seq<Event>, i: nat, k: Id, v: Supplier)
    requires IsRun(ws, es) && i < |ws|
    ensures SupplierAt(k)(ws[i].mem) == Some(v) <==> LastMark(ws, es, i, SupplierMark(k), v)
  {
    hide Follows, IsRun, LastMark;
    CatalogueIsFollowed("", k);
    RunsFollow(ws, es, i, SupplierAt(k), SupplierMark(k), v);
  }

  /** An order has exactly the status its latest accepted placing, submission or decision gave it; so has a dispute. */
  lemma RunsDecideOrders(ws: seq<World>, es: seq<Event>, i: nat, k: Id, status: Approval, open: bool)
    requires IsRun(ws, es) && i < |ws|
    ensures OrderStatus(k)(ws[i].mem) == Some(status) <==> LastMark(ws, es, i, OrderMark(k), status)
    ensures DisputeOpen(k)(ws[i].mem) == Some(open) <==> LastMark(ws, es, i, DisputeMark(k), open)
  {
    hide Follows, IsRun, LastMark;
    OrdersAreFollowed(k);
    RunsFollow(ws, es, i, OrderStatus(k), OrderMark(k), status);
    RunsFollow(ws, es, i, DisputeOpen(k), DisputeMark(k), open);
  }

  /** An order is what its placing asked for, whatever became of it since. */
  lemma RunsKeepOrders(ws: seq<World>, es: seq<Event>, i: nat, k: Id, o: (Id, Id, seq<OrderLine>))
    requires IsRun(ws, es) && i < |ws|
    ensures OrderContents(k)(ws[i].mem) == Some(o) <==> LastMark(ws, es, i, PlacingMark(k), o)
  {
    hide Follows, IsRun, LastMark;
    OrdersAreFollowed(k);
    RunsFollow(ws, es, i, OrderContents(k), PlacingMark(k), o);
  }

  /** A drawer is open until its closing, has the float it was opened with and the amount it was closed with. */
  lemma RunsCloseDrawers(ws: seq<World>, es: seq<Event>, i: nat, k: Id, open: bool, amount: int)
    requires IsRun(ws, es) && i < |ws|
    ensures DrawerOpen(k)(ws[i].mem) == Some(open) <==> LastMark(ws, es, i, DrawerMark(k), open)
    ensures DrawerFloat(k)(ws[i].mem) == Some(amount) <==> LastMark(ws, es, i, FloatMark(k), amount)
    ensures DrawerClosing(k)(ws[i].mem) == Some(amount) <==> LastMark(ws, es, i, ClosingMark(k), amount)
  {
    hide Follows, IsRun, LastMark;
    DrawersAreFollowed(k);
    RunsFollow(ws, es, i, DrawerOpen(k), DrawerMark(k), open);
    RunsFollow(ws, es, i, DrawerFloat(k), FloatMark(k), amount);
    RunsFollow(ws, es, i, DrawerClosing(k), ClosingMark(k), amount);
  }

  /** A refund is approved from the start, if the clerk might approve it, or since its approval. */
  lemma RunsApproveRefunds(ws: seq<World>, es: seq<Event>, i: nat, k: Id, approved: bool)
    requires IsRun(ws, es) && i < |ws|
    ensures RefundApproved(k)(ws[i].mem) == Some(approved) <==> LastMark(ws, es, i, RefundMark(k), approved)
  {
    hide Follows, IsRun, LastMark;
    RefundsAreFollowed(k);
    RunsFollow(ws, es, i, RefundApproved(k), RefundMark(k), approved);
  }
}
