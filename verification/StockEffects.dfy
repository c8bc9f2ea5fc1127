/** How every request moves the stock on hand, item by item and branch by branch. */
module StockEffects {
  import opened Folds
  import opened Inventory
  import opened Numbering
  import opened StateModel
  import opened BatchTracking
  import opened Handlers
  import opened Frames
  import opened Consistency
  import opened Crashes
  import opened Middleware
  import opened Runs

  /** Quantity of an item on the lines of a request. */
  function Asked(lines: seq<Line>, i: Id): int { Sum(lines, Ordered(i)) }

  /** What an accepted request adds to the stock of item `i` at branch `b`. */
  function Moved(s: State, r: Request, i: Id, b: Id): int
  {
    match r
    case CreateReceipt(branch, order) =>
      if b == branch && order in s.purchasing.purchaseOrders then ReceivedOf(s.purchasing.purchaseOrders[order].lines)(i)
      else 0
    case CreateTransfer(source, destination, lines) =>
      (if b == destination then Asked(lines, i) else 0) - (if b == source then Asked(lines, i) else 0)
    case CountStock(branch, _, lines) =>
      if b == branch then LastCounted(lines, i, Stock(s.ledger, i, b)) - Stock(s.ledger, i, b) else 0
    case CreateSale(branch, _, _, lines, _, _, _) => if b == branch then -Asked(lines, i) else 0
    case ReturnSale(branch, _, lines, _, _) => if b == branch then Asked(lines, i) else 0
    case ExchangeSale(branch, _, lines, replacements, _, _) =>
      if b == branch then Asked(lines, i) - Asked(replacements, i) else 0
    case ReturnToSupplier(branch, _, lines) => if b == branch then -Asked(lines, i) else 0
    case WriteOffLot(branch, lot, quantity) =>
      if b == branch && lot in s.purchasing.batchLots && s.purchasing.batchLots[lot].productId == i then -quantity else 0
    case _ => 0
  }

  lemma {:induction false} ReceiptMoves(s: State, c: Call, branch: Id, order: Id, i: Id, b: Id)
    requires Receive(s, c, branch, order).verdict == Accepted
    ensures Stock(Receive(s, c, branch, order).state.ledger, i, b)
         == Stock(s.ledger, i, b) + Moved(s, CreateReceipt(branch, order), i, b)
  {
    hide Sum, Map, Stock;
    var lines := s.purchasing.purchaseOrders[order].lines;
    PostedStock(s.ledger, Bare(lines), branch, PurchaseReceipt, 1, i, b);
    MapSum(lines, Plain(), Ordered(i), Restrict(LineQuantity(), LineProduct(), i));
  }

  lemma SaleMoves(s: State, c: Call, r: Request, i: Id, b: Id)
    requires r.CreateSale? && ApplySelling(s, c, r).verdict == Accepted
    ensures Stock(ApplySelling(s, c, r).state.ledger, i, b) == Stock(s.ledger, i, b) + Moved(s, r, i, b)
  {
    hide Sum, Map, Stock, FirstFault, SaleInvoiceOf, SaleOf, Advance, CountVisit, PricingFault;
    assert r.lines[..|r.lines|] == r.lines;
    PostedStock(s.ledger, r.lines, r.branchId, SaleIssue, -1, i, b);
  }

  lemma ExchangeMoves(s: State, c: Call, r: Request, i: Id, b: Id)
    requires r.ExchangeSale? && ApplySelling(s, c, r).verdict == Accepted
    ensures Stock(ApplySelling(s, c, r).state.ledger, i, b) == Stock(s.ledger, i, b) + Moved(s, r, i, b)
  {
    hide Sum, Map, Stock, FirstFault, ExchangeOf, PricingFault, ExchangeFault;
    assert r.lines[..|r.lines|] == r.lines && r.replacements[..|r.replacements|] == r.replacements;
    PostedStock(s.ledger, r.lines, r.branchId, CustomerReturn, 1, i, b);
    PostedStock(s.ledger + Map(r.lines, Post(r.branchId, CustomerReturn, 1)), r.replacements, r.branchId, SaleIssue, -1, i,
                b);
  }

  lemma ReturnMoves(s: State, c: Call, r: Request, i: Id, b: Id)
    requires r.ReturnSale? && ApplyRefund(s, c, r).verdict == Accepted
    ensures Stock(ApplyRefund(s, c, r).state.ledger, i, b) == Stock(s.ledger, i, b) + Moved(s, r, i, b)
  {
    hide Sum, Map, Stock, FirstFault, CustomerCredit, ReturnFault;
    assert r.lines[..|r.lines|] == r.lines;
    PostedStock(s.ledger, r.lines, r.branchId, CustomerReturn, 1, i, b);
  }

  lemma SendBackMoves(s: State, c: Call, r: Request, i: Id, b: Id)
    requires r.ReturnToSupplier? && ApplyBilling(s, c, r).verdict == Accepted
    ensures Stock(ApplyBilling(s, c, r).state.ledger, i, b) == Stock(s.ledger, i, b) + Moved(s, r, i, b)
  {
    hide Sum, Map, Stock, FirstFault, ReturnNoteOf, SupplierReturnFault;
    assert r.lines[..|r.lines|] == r.lines;
    PostedStock(s.ledger, r.lines, r.branchId, SupplierReturn, -1, i, b);
  }

  lemma WriteOffMoves(s: State, c: Call, r: Request, i: Id, b: Id)
    requires r.WriteOffLot? && ApplyStock(s, c, r).verdict == Accepted
    ensures Stock(ApplyStock(s, c, r).state.ledger, i, b) == Stock(s.ledger, i, b) + Moved(s, r, i, b)
  {
    hide Sum, Stock, StoredRemaining;
    var out := Entry(s.purchasing.batchLots[r.lotId].productId, r.branchId, -r.quantity, ExpiryWriteOff);
    StockOfOne(s.ledger, out, i, b);
  }

  lemma StockOfOne(ledger: Ledger, e: Entry, i: Id, b: Id)
    ensures Stock(ledger + [e], i, b) == Stock(ledger, i, b) + if e.item == i && e.branch == b then e.quantity else 0
  {
    SumSnoc(ledger, e, At(i, b));
  }

  lemma StockMoves(s: State, c: Call, r: Request, i: Id, b: Id)
    requires IsStock(r) && ApplyStock(s, c, r).verdict == Accepted
    ensures Stock(ApplyStock(s, c, r).state.ledger, i, b) == Stock(s.ledger, i, b) + Moved(s, r, i, b)
  {
    hide Sum, Stock, WriteOff, AfterTransfers, AfterCounts, CountResults, LastCounted;
    match r
    case CreateTransfer(source, destination, lines) => TransfersMoveStock(s.ledger, source, destination, lines, i, b);
    case CountStock(branch, _, lines) => CountsSetStock(s.ledger, branch, lines, i, b);
    case WriteOffLot(_, _, _) => WriteOffMoves(s, c, r, i, b);
  }

  lemma OrderingMoves(s: State, c: Call, r: Request, i: Id, b: Id)
    requires IsOrdering(r) && ApplyOrdering(s, c, r).verdict == Accepted
    ensures Stock(ApplyOrdering(s, c, r).state.ledger, i, b) == Stock(s.ledger, i, b) + Moved(s, r, i, b)
  {
    hide Sum, Stock, Receive, StoreLots, LotsMatch;
    if r.CreateReceipt? { ReceiptMoves(s, c, r.branchId, r.orderId, i, b); }
  }

  lemma BillingMoves(s: State, c: Call, r: Request, i: Id, b: Id)
    requires IsBilling(r) && ApplyBilling(s, c, r).verdict == Accepted
    ensures Stock(ApplyBilling(s, c, r).state.ledger, i, b) == Stock(s.ledger, i, b) + Moved(s, r, i, b)
  {
    hide Sum, Stock, SendBack;
    if r.ReturnToSupplier? { SendBackMoves(s, c, r, i, b); }
  }

  lemma SellingMoves(s: State, c: Call, r: Request, i: Id, b: Id)
    requires IsSelling(r) && ApplySelling(s, c, r).verdict == Accepted
    ensures Stock(ApplySelling(s, c, r).state.ledger, i, b) == Stock(s.ledger, i, b) + Moved(s, r, i, b)
  {
    hide ApplySelling, Stock, Moved;
    if r.CreateSale? { SaleMoves(s, c, r, i, b); } else { ExchangeMoves(s, c, r, i, b); }
  }

  lemma RefundMoves(s: State, c: Call, r: Request, i: Id, b: Id)
    requires IsRefund(r) && ApplyRefund(s, c, r).verdict == Accepted
    ensures Stock(ApplyRefund(s, c, r).state.ledger, i, b) == Stock(s.ledger, i, b) + Moved(s, r, i, b)
  {
    hide TakeBack, Stock;
    if r.ReturnSale? { ReturnMoves(s, c, r, i, b); }
  }

  /**
   * Every accepted request moves the stock of every item at every branch by exactly what it asks for: receipts, customer
   * returns and arriving transfers add, sales, supplier returns, write-offs and leaving transfers take away, a count
   * sets the counted figure, and nothing else moves anything.
   */
  lemma AcceptedMovesStock(s: State, c: Call, r: Request, i: Id, b: Id)
    requires Apply(s, c, r).verdict == Accepted
    ensures Stock(Apply(s, c, r).state.ledger, i, b) == Stock(s.ledger, i, b) + Moved(s, r, i, b)
  {
    hide Stock, Moved, ApplyRegistry, ApplyParty, ApplyBranch, ApplyOrdering, ApplyBilling, ApplyDispute, ApplyStock,
        ApplySelling, ApplyRefund;
    if IsRegistry(r) { RegistryFrame(s, c, r); NothingMoved(s, r, i, b); }
    else if IsParty(r) { PartyFrame(s, c, r); NothingMoved(s, r, i, b); }
    else if IsBranch(r) { BranchFrame(s, c, r); NothingMoved(s, r, i, b); }
    else if IsOrdering(r) { OrderingMoves(s, c, r, i, b); }
    else if IsBilling(r) { BillingMoves(s, c, r, i, b); }
    else if IsDispute(r) { DisputeFrame(s, c, r); NothingMoved(s, r, i, b); }
    else if IsStock(r) { StockMoves(s, c, r, i, b); }
    else if IsSelling(r) { SellingMoves(s, c, r, i, b); }
    else { RefundMoves(s, c, r, i, b); }
  }

  lemma NothingMoved(s: State, r: Request, i: Id, b: Id)
    requires IsRegistry(r) || IsParty(r) || IsBranch(r) || IsDispute(r)
    ensures Moved(s, r, i, b) == 0
  {
  }

  // ---- over whole runs ----

  /** What the accepted requests of a run before boundary `n` moved. */
  ghost function MovedBy(ws: seq<World>, es: seq<Event>, n: nat, i: Id, b: Id): int
    requires n <= |es| < |ws|
  {
    if n == 0 then 0
    else
      var w, e := ws[n - 1], es[n - 1];
      MovedBy(ws, es, n - 1, i, b)
      + if e.Arrived? && Serve(w.mem, e.call, e.request).verdict == Accepted then Moved(w.mem, e.request, i, b) else 0
  }

  lemma StepMovesStock(w: World, e: Event, w': World, i: Id, b: Id)
    requires Step(w, e, w') && InSync(w) && !Stranding(w, e)
    ensures Stock(w'.mem.ledger, i, b) == Stock(w.mem.ledger, i, b)
         + if e.Arrived? && Serve(w.mem, e.call, e.request).verdict == Accepted then Moved(w.mem, e.request, i, b) else 0
  {
    hide FreshIds, ValidPayload, Apply, Blocked, SnapshotOf, Stock, Moved, Recovered;
    if e.Arrived? && Serve(w.mem, e.call, e.request).verdict == Accepted {
      AcceptedMovesStock(w.mem, e.call, e.request, i, b);
    }
  }

  ghost predicate Stranding(w: World, e: Event) { e.Arrived? && Stranded(w.mem, Serve(w.mem, e.call, e.request)) }

  /** In a run without half-way crashes, the stock of every item at every branch is what the accepted requests moved. */
  lemma {:induction false} RunsAccountForStock(ws: seq<World>, es: seq<Event>, n: nat, i: Id, b: Id)
    requires IsRun(ws, es) && n < |ws| && forall k :: 0 <= k < n ==> !Strands(ws[k], es[k])
    ensures Stock(ws[n].mem.ledger, i, b) == MovedBy(ws, es, n, i, b)
  {
    hide Consistent, Step, Ahead, StrandsWork, Serve, Moved, Stock, InSync;
    if n == 0 {
      EmptyStock(i, b);
    } else {
      RunsAccountForStock(ws, es, n - 1, i, b);
      RunsStayConsistent(ws, es, n - 1);
      RunsSaveExactly(ws, es, n - 1);
      if es[n - 1].Arrived? { StrandsExactly(ws[n - 1].mem, es[n - 1].call, es[n - 1].request); }
      StepMovesStock(ws[n - 1], es[n - 1], ws[n], i, b);
    }
  }

  lemma EmptyStock(i: Id, b: Id)
    ensures Stock(EMPTY.ledger, i, b) == 0
  {
  }
}
