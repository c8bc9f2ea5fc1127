/** Order, receipt, lots and invoice form a chain. */
module ChainInvariant {
  import opened Folds
  import opened Inventory
  import opened Entities
  import opened Money
  import opened Taxes
  import opened Numbering
  import opened StateModel
  import opened BatchTracking
  import opened Handlers
  import opened LedgerInvariant

  type Orders = map<Id, PurchaseOrder>
  type Receipts = map<Id, GoodsReceipt>
  type Bills = map<Id, PurchaseInvoice>
  type Lots = map<Id, BatchLot>

  /** A receipt belongs to an approved order of its tenant and branch and repeats its supplier and lines. */
  predicate FromOrder(o: PurchaseOrder, g: GoodsReceipt)
  {
    o.status == Approved && o.tenantId == g.tenantId && o.branchId == g.branchId && o.supplierId == g.supplierId
        && o.lines == g.lines
  }

  ghost predicate ReceiptsOk(orders: Orders, receipts: Receipts)
  {
    && (forall k :: k in receipts ==> receipts[k].id == k && receipts[k].orderId in orders)
    && (forall k :: k in receipts ==> FromOrder(orders[receipts[k].orderId], receipts[k]))
    && (forall j, k :: j in receipts && k in receipts && receipts[j].orderId == receipts[k].orderId ==> j == k)
  }

  predicate FromReceipt(g: GoodsReceipt, b: PurchaseInvoice)
  {
    b.orderId == g.orderId && b.supplierId == g.supplierId && b.lines == g.lines
  }

  ghost predicate BillsOk(receipts: Receipts, bills: Bills)
  {
    && (forall k :: k in bills ==> bills[k].id == k && bills[k].receiptId in receipts)
    && (forall k :: k in bills ==> FromReceipt(receipts[bills[k].receiptId], bills[k]))
    && (forall j, k :: j in bills && k in bills && bills[j].receiptId == bills[k].receiptId ==> j == k)
  }

  predicate LotOk(g: GoodsReceipt, l: BatchLot)
  {
    l.tenantId == g.tenantId && l.branchId == g.branchId && l.orderId == g.orderId && 0 <= l.writtenOff <= l.quantity
  }

  function LotFrom(receiptId: Id, item: Id): BatchLot -> int
  {
    (l: BatchLot) => if l.receiptId == receiptId && l.productId == item then l.quantity else 0
  }

  /** The lots recorded for a receipt, if any, cover what was received of every product. */
  ghost predicate LotsCover(lots: Lots, k: Id, lines: seq<OrderLine>)
  {
    (exists l :: l in lots && lots[l].receiptId == k)
    ==> forall item :: SumMap(lots, LotFrom(k, item)) == ReceivedOf(lines)(item)
  }

  ghost predicate LotsOk(receipts: Receipts, lots: Lots)
  {
    && (forall k :: k in lots ==> lots[k].id == k && lots[k].receiptId in receipts)
    && (forall k :: k in lots ==> LotOk(receipts[lots[k].receiptId], lots[k]))
    && (forall k :: k in receipts ==> LotsCover(lots, k, receipts[k].lines))
  }

  /** At most one receipt per order, one invoice and one lot intake per receipt, and all of them agree. */
  ghost predicate ChainOk(p: Purchasing)
  {
    && (forall k :: k in p.purchaseOrders ==> p.purchaseOrders[k].id == k)
    && ReceiptsOk(p.purchaseOrders, p.goodsReceipts)
    && BillsOk(p.goodsReceipts, p.purchaseInvoices)
    && LotsOk(p.goodsReceipts, p.batchLots)
  }

  /** Orders may be added or change status as long as approved ones stay as they are. */
  lemma OrdersKeepChain(p: Purchasing, orders: Orders)
    requires ChainOk(p)
    requires forall k :: k in orders ==> orders[k].id == k
    requires forall k :: k in p.purchaseOrders && p.purchaseOrders[k].status == Approved ==>
        k in orders && orders[k] == p.purchaseOrders[k]
    ensures ChainOk(p.(purchaseOrders := orders))
  {
    hide BillsOk, LotsOk;
    assert forall k :: k in p.goodsReceipts ==> FromOrder(p.purchaseOrders[p.goodsReceipts[k].orderId], p.goodsReceipts[k]);
  }

  lemma SubmitKeepsChain(s: State, c: Call, branch: Id, orderId: Id)
    requires ChainOk(s.purchasing)
    ensures ChainOk(Submit(s, c, branch, orderId).state.purchasing)
  {
    hide ReceiptsOk, BillsOk, LotsOk;
    if Submit(s, c, branch, orderId).verdict == Accepted {
      OrdersKeepChain(s.purchasing, Submit(s, c, branch, orderId).state.purchasing.purchaseOrders);
    }
  }

  lemma DecideKeepsChain(s: State, c: Call, branch: Id, orderId: Id, approve: bool)
    requires ChainOk(s.purchasing)
    ensures ChainOk(Decide(s, c, branch, orderId, approve).state.purchasing)
  {
    hide ReceiptsOk, BillsOk, LotsOk;
    if Decide(s, c, branch, orderId, approve).verdict == Accepted {
      OrdersKeepChain(s.purchasing, Decide(s, c, branch, orderId, approve).state.purchasing.purchaseOrders);
    }
  }

  lemma PlaceKeepsChain(s: State, c: Call, branch: Id, supplier: Id, lines: seq<OrderLine>)
    requires ChainOk(s.purchasing) && c.ids(0) !in s.purchasing.purchaseOrders
    ensures ChainOk(PlaceOrder(s, c, branch, supplier, lines).state.purchasing)
  {
    hide ReceiptsOk, BillsOk, LotsOk;
    OrdersKeepChain(s.purchasing, PlaceOrder(s, c, branch, supplier, lines).state.purchasing.purchaseOrders);
  }

  lemma BillsKept(receipts: Receipts, bills: Bills, id: Id, g: GoodsReceipt)
    requires BillsOk(receipts, bills) && id !in receipts
    ensures BillsOk(receipts[id := g], bills)
  {
  }

  lemma LotsKept(receipts: Receipts, lots: Lots, id: Id, g: GoodsReceipt)
    requires LotsOk(receipts, lots) && id !in receipts
    ensures LotsOk(receipts[id := g], lots)
  {
    hide SumMap, ReceivedOf;
    assert forall l :: l in lots ==> lots[l].receiptId != id;
  }

  lemma ReceiveKeepsChain(s: State, c: Call, branch: Id, orderId: Id)
    requires ChainOk(s.purchasing) && c.ids(0) !in s.purchasing.goodsReceipts
    requires Receive(s, c, branch, orderId).verdict == Accepted
    ensures ChainOk(Receive(s, c, branch, orderId).state.purchasing)
  {
    hide BillsOk, LotsOk, Map;
    var p, q := s.purchasing, Receive(s, c, branch, orderId).state.purchasing;
    var g := q.goodsReceipts[c.ids(0)];
    assert q == p.(goodsReceipts := p.goodsReceipts[c.ids(0) := g]);
    assert FromOrder(p.purchaseOrders[orderId], g);
    assert !AlreadyReceived(s, orderId);
    assert forall k :: k in p.goodsReceipts ==> p.goodsReceipts[k].orderId != orderId;
    BillsKept(p.goodsReceipts, p.purchaseInvoices, c.ids(0), g);
    LotsKept(p.goodsReceipts, p.batchLots, c.ids(0), g);
  }

  lemma InvoiceKeepsChain(s: State, c: Call, branch: Id, receiptId: Id)
    requires ChainOk(s.purchasing) && c.ids(0) !in s.purchasing.purchaseInvoices
    requires InvoiceReceipt(s, c, branch, receiptId).verdict == Accepted
    ensures ChainOk(InvoiceReceipt(s, c, branch, receiptId).state.purchasing)
  {
    hide ReceiptsOk, BillsOk, LotsOk, Map, PurchaseTotals, NextNumber, Advance;
    var p, q := s.purchasing, InvoiceReceipt(s, c, branch, receiptId).state.purchasing;
    var g, b := p.goodsReceipts[receiptId], q.purchaseInvoices[c.ids(0)];
    assert g.id == receiptId by { ReceiptIsOwn(p.purchaseOrders, p.goodsReceipts, receiptId); }
    assert q == p.(purchaseInvoices := p.purchaseInvoices[c.ids(0) := b]);
    assert FromReceipt(g, b) && b.receiptId == receiptId && b.id == c.ids(0);
    assert !AlreadyInvoiced(s, receiptId);
    assert forall k :: k in p.purchaseInvoices ==> p.purchaseInvoices[k].receiptId != receiptId;
    NewBillFits(p.goodsReceipts, p.purchaseInvoices, c.ids(0), b);
  }

  lemma ReceiptIsOwn(orders: Orders, receipts: Receipts, k: Id)
    requires ReceiptsOk(orders, receipts) && k in receipts
    ensures receipts[k].id == k
  {
  }

  lemma NewBillFits(receipts: Receipts, bills: Bills, id: Id, b: PurchaseInvoice)
    requires BillsOk(receipts, bills) && id !in bills && b.id == id && b.receiptId in receipts
    requires FromReceipt(receipts[b.receiptId], b) && forall k :: k in bills ==> bills[k].receiptId != b.receiptId
    ensures BillsOk(receipts, bills[id := b])
  {
  }

  // ---- lots ----

  function InputOf(item: Id): LotInput -> int { Restrict(InputQuantity(), InputProduct(), item) }

  ghost predicate FreshLotIds(lots: Lots, c: Call)
  {
    && (forall n, m: nat :: n != m ==> c.ids(n) != c.ids(m))
    && (forall n: nat :: c.ids(n) !in lots)
  }

  lemma {:induction false} IntakeLots(lots: Lots, c: Call, g: GoodsReceipt, inputs: seq<LotInput>, k: Id, item: Id)
    requires FreshLotIds(lots, c)
    ensures SumMap(StoreLots(lots, c, g, g.branchId, inputs), LotFrom(k, item))
         == SumMap(lots, LotFrom(k, item)) + if k == g.id then BatchedOf(inputs)(item) else 0
  {
    hide SumMap, StoreLots, Sum;
    if k == g.id {
      StoreLotsSum(lots, c, g, g.branchId, inputs, LotFrom(k, item), InputOf(item));
    } else {
      StoreLotsSum(lots, c, g, g.branchId, inputs, LotFrom(k, item), NoQuantity());
      SumZero(inputs, NoQuantity());
    }
  }

  /** The new lots cover their own receipt and leave the cover of every other receipt alone. */
  lemma {:induction false} IntakeCovers(lots: Lots, c: Call, g: GoodsReceipt, inputs: seq<LotInput>,
                                        k: Id, lines: seq<OrderLine>)
    requires FreshLotIds(lots, c) && LotsMatch(g.lines, inputs) && LotsCover(lots, k, lines)
    requires k == g.id ==> lines == g.lines && forall l :: l in lots ==> lots[l].receiptId != k
    ensures LotsCover(StoreLots(lots, c, g, g.branchId, inputs), k, lines)
  {
    hide SumMap, StoreLots, Sum, LotsMatch, ReceivedOf, BatchedOf;
    var lots' := StoreLots(lots, c, g, g.branchId, inputs);
    forall item ensures SumMap(lots', LotFrom(k, item))
                     == SumMap(lots, LotFrom(k, item)) + if k == g.id then BatchedOf(inputs)(item) else 0
    {
      IntakeLots(lots, c, g, inputs, k, item);
    }
    if k == g.id {
      forall item ensures SumMap(lots', LotFrom(k, item)) == ReceivedOf(lines)(item) {
        SumMapZero(lots, LotFrom(k, item));
        MatchedLotsCoverReceipt(lines, inputs, item);
      }
    } else if l :| l in lots' && lots'[l].receiptId == k {
      StoreLotsSum(lots, c, g, g.branchId, inputs, LotFrom(k, ""), NoQuantity());
      assert l in lots && lots[l].receiptId == k;
    }
  }

  lemma {:induction false} IntakeLotOk(receipts: Receipts, lots: Lots, c: Call, k: Id, inputs: seq<LotInput>, l: Id)
    requires LotsOk(receipts, lots) && FreshLotIds(lots, c)
    requires k in receipts && receipts[k].id == k && receipts[k].tenantId == c.tenantId
    requires forall i :: 0 <= i < |inputs| ==> inputs[i].quantity > 0
    requires l in StoreLots(lots, c, receipts[k], receipts[k].branchId, inputs)
    ensures var lot := StoreLots(lots, c, receipts[k], receipts[k].branchId, inputs)[l];
            lot.id == l && lot.receiptId in receipts && LotOk(receipts[lot.receiptId], lot)
  {
    hide SumMap, StoreLots, Sum, LotsCover;
    var g := receipts[k];
    StoreLotsSum(lots, c, g, g.branchId, inputs, LotFrom(k, ""), InputOf(""));
    if l !in lots {
      var i :| 0 <= i < |inputs| && c.ids(i) == l;
      assert StoreLots(lots, c, g, g.branchId, inputs)[l] == NewLot(c, g, g.branchId, inputs[i], l);
    }
  }

  lemma {:induction false} IntakeKeepsLots(receipts: Receipts, lots: Lots, c: Call, k: Id, inputs: seq<LotInput>)
    requires LotsOk(receipts, lots) && FreshLotIds(lots, c)
    requires k in receipts && receipts[k].id == k && receipts[k].tenantId == c.tenantId
    requires forall i :: 0 <= i < |inputs| ==> inputs[i].quantity > 0
    requires LotsMatch(receipts[k].lines, inputs) && forall l :: l in lots ==> lots[l].receiptId != k
    ensures LotsOk(receipts, StoreLots(lots, c, receipts[k], receipts[k].branchId, inputs))
  {
    hide SumMap, StoreLots, Sum, LotsMatch, LotsCover, LotOk;
    var g := receipts[k];
    var lots' := StoreLots(lots, c, g, g.branchId, inputs);
    forall j | j in receipts ensures LotsCover(lots', j, receipts[j].lines) {
      IntakeCovers(lots, c, g, inputs, j, receipts[j].lines);
    }
    forall l | l in lots'
      ensures lots'[l].id == l && lots'[l].receiptId in receipts && LotOk(receipts[lots'[l].receiptId], lots'[l])
    {
      IntakeLotOk(receipts, lots, c, k, inputs, l);
    }
  }

  lemma IntakeKeepsChain(s: State, c: Call, branch: Id, receiptId: Id, inputs: seq<LotInput>)
    requires ChainOk(s.purchasing) && FreshLotIds(s.purchasing.batchLots, c)
    requires forall i :: 0 <= i < |inputs| ==> inputs[i].quantity > 0
    requires Intake(s, c, branch, receiptId, inputs).verdict == Accepted
    ensures ChainOk(Intake(s, c, branch, receiptId, inputs).state.purchasing)
  {
    hide BillsOk, LotsOk, StoreLots, LotsMatch;
    assert !HasLots(s, receiptId);
    assert forall l :: l in s.purchasing.batchLots ==> s.purchasing.batchLots[l].receiptId != receiptId;
    IntakeKeepsLots(s.purchasing.goodsReceipts, s.purchasing.batchLots, c, receiptId, inputs);
  }

  /** The remaining quantity shown for a lot is at most what is left of it on paper. */
  lemma RemainingWithinNet(lots: Lots, stock: int, lot: BatchLot)
    ensures StoredRemaining(lots, stock, lot) <= Max(lot.quantity - lot.writtenOff, 0)
  {
    hide SumMap;
    assert Net()(lot) == Max(lot.quantity - lot.writtenOff, 0);
  }

  lemma WriteOffKeepsLots(receipts: Receipts, lots: Lots, id: Id, q: int)
    requires LotsOk(receipts, lots) && id in lots && 0 < q <= lots[id].quantity - lots[id].writtenOff
    ensures LotsOk(receipts, lots[id := WrittenOff(lots[id], q)])
  {
    hide SumMap, ReceivedOf;
    var lots' := lots[id := WrittenOff(lots[id], q)];
    forall k | k in receipts ensures LotsCover(lots', k, receipts[k].lines) {
      assert LotsCover(lots, k, receipts[k].lines);
      forall item ensures SumMap(lots', LotFrom(k, item)) == SumMap(lots, LotFrom(k, item)) {
        SumMapUpdate(lots, id, WrittenOff(lots[id], q), LotFrom(k, item));
      }
      if l :| l in lots' && lots'[l].receiptId == k { assert l in lots && lots[l].receiptId == k; }
    }
  }

  /** An accepted write-off never takes a lot below zero. */
  lemma WriteOffKeepsChain(s: State, c: Call, branch: Id, lotId: Id, quantity: int)
    requires ChainOk(s.purchasing) && quantity > 0
    requires WriteOff(s, c, branch, lotId, quantity).verdict == Accepted
    ensures ChainOk(WriteOff(s, c, branch, lotId, quantity).state.purchasing)
  {
    hide ReceiptsOk, BillsOk, LotsOk, StoredRemaining;
    var lot := s.purchasing.batchLots[lotId];
    RemainingWithinNet(BranchLots(s.purchasing.batchLots, c.tenantId, branch), Stock(s.ledger, lot.productId, branch), lot);
    WriteOffKeepsLots(s.purchasing.goodsReceipts, s.purchasing.batchLots, lotId, quantity);
  }

  /** What a lot still holds when the branch's allocation is recomputed from the stored lots and the ledger. */
  ghost function LeftInLot(s: State, tenantId: Id, branch: Id, k: Id): int
    requires k in s.purchasing.batchLots
  {
    var lot := s.purchasing.batchLots[k];
    StoredRemaining(BranchLots(s.purchasing.batchLots, tenantId, branch), Stock(s.ledger, lot.productId, branch), lot)
  }

  ghost function UntrackedOf(s: State, tenantId: Id, branch: Id, item: Id): int
  {
    Max(Stock(s.ledger, item, branch) - SumMap(BranchLots(s.purchasing.batchLots, tenantId, branch), NetOf(item)), 0)
  }

  lemma StockAfterWriteOff(ledger: Ledger, item: Id, branch: Id, q: int, i: Id)
    ensures Stock(ledger + [Entry(item, branch, -q, ExpiryWriteOff)], i, branch)
         == Stock(ledger, i, branch) - if i == item then q else 0
  {
    SumSnoc(ledger, Entry(item, branch, -q, ExpiryWriteOff), At(i, branch));
  }

  /**
   * An accepted write-off of q lowers what its lot still holds by exactly q; every other lot of the branch, of any
   * product, and every product's untracked stock stay as they were.
   */
  lemma AcceptedWriteOffFrame(s: State, c: Call, branch: Id, lotId: Id, q: int, k: Id, item: Id)
    requires ChainOk(s.purchasing) && q > 0 && WriteOff(s, c, branch, lotId, q).verdict == Accepted
    requires k in BranchLots(s.purchasing.batchLots, c.tenantId, branch)
    ensures var t := WriteOff(s, c, branch, lotId, q).state;
            && k in t.purchasing.batchLots
            && LeftInLot(t, c.tenantId, branch, k) == LeftInLot(s, c.tenantId, branch, k) - (if k == lotId then q else 0)
            && UntrackedOf(t, c.tenantId, branch, item) == UntrackedOf(s, c.tenantId, branch, item)
  {
    hide StoredRemaining, Stock, SumMap, ReceiptsOk, BillsOk, LotOk, LotsCover;
    var t := WriteOff(s, c, branch, lotId, q).state;
    var lots := BranchLots(s.purchasing.batchLots, c.tenantId, branch);
    var lot := lots[lotId];
    var stock := Stock(s.ledger, lot.productId, branch);
    assert BranchLots(t.purchasing.batchLots, c.tenantId, branch) == lots[lotId := WrittenOff(lot, q)];
    StockAfterWriteOff(s.ledger, lot.productId, branch, q, lots[k].productId);
    StockAfterWriteOff(s.ledger, lot.productId, branch, q, item);
    if lots[k].productId == lot.productId {
      WriteOffFrame(lots, stock, lotId, q, k);
    } else {
      WriteOffLeavesOtherProducts(lots, stock, lotId, q, k, Stock(s.ledger, lots[k].productId, branch));
    }
    if item == lot.productId {
      WriteOffKeepsUntracked(lots, stock, lotId, q);
    } else {
      MarkStays(lots, stock, lotId, q);
    }
  }

  // ---- the branch's batch report before and after ----

  /** What the branch's batch report shows on a day. */
  ghost predicate BranchReports(s: State, tenantId: Id, branch: Id, asOf: Date, report: BatchReport)
  {
    ReportsStored(BranchLots(s.purchasing.batchLots, tenantId, branch), StockAt(s.ledger, branch), asOf, report)
  }

  lemma {:induction false} SameUntracked(s: State, t: State, tenantId: Id, branch: Id, asOf: Date, before: BatchReport,
                                         after: BatchReport)
    requires BranchReports(s, tenantId, branch, asOf, before) && BranchReports(t, tenantId, branch, asOf, after)
    requires var lots, lots' := BranchLots(s.purchasing.batchLots, tenantId, branch),
                 BranchLots(t.purchasing.batchLots, tenantId, branch);
             lots.Keys == lots'.Keys && forall k :: k in lots ==> lots'[k].productId == lots[k].productId
    requires forall p :: UntrackedOf(t, tenantId, branch, p) == UntrackedOf(s, tenantId, branch, p)
    ensures after.untracked == before.untracked
  {
    hide SumMap, Sum, IsShown, Stock;
    var lots, lots' := BranchLots(s.purchasing.batchLots, tenantId, branch),
        BranchLots(t.purchasing.batchLots, tenantId, branch);
    var f, g := UntrackedStored(lots, StockAt(s.ledger, branch)), UntrackedStored(lots', StockAt(t.ledger, branch));
    var ps :| ProductsOf(lots, ps) && before.untracked == Sum(ps, f);
    var rs :| ProductsOf(lots', rs) && after.untracked == Sum(rs, g);
    SameProducts(lots, lots', ps, rs);
    SameMembersSum(ps, rs, g);
    forall i | 0 <= i < |ps| ensures f(ps[i]) == g(ps[i]) {
      assert f(ps[i]) == UntrackedOf(s, tenantId, branch, ps[i]) && g(ps[i]) == UntrackedOf(t, tenantId, branch, ps[i]);
    }
    SumSame(ps, f, g);
  }

  lemma SameProducts(lots: Lots, lots': Lots, ps: seq<Id>, rs: seq<Id>)
    requires ProductsOf(lots, ps) && ProductsOf(lots', rs)
    requires lots.Keys == lots'.Keys && forall k :: k in lots ==> lots'[k].productId == lots[k].productId
    ensures NoDuplicates(ps) && NoDuplicates(rs) && forall p :: p in ps <==> p in rs
  {
    forall p | p in ps ensures p in rs {
      var k :| k in lots && lots[k].productId == p;
      assert lots'[k].productId in rs;
    }
    forall p | p in rs ensures p in ps {
      var k :| k in lots' && lots'[k].productId == p;
      assert lots[k].productId in ps;
    }
  }

  /** Only the lot itself changes, and only in what is written off. */
  lemma WrittenOffShape(s: State, c: Call, branch: Id, lotId: Id, q: int)
    requires WriteOff(s, c, branch, lotId, q).verdict == Accepted
    ensures var lots := BranchLots(s.purchasing.batchLots, c.tenantId, branch);
            && lotId in lots
            && BranchLots(WriteOff(s, c, branch, lotId, q).state.purchasing.batchLots, c.tenantId, branch)
                 == lots[lotId := WrittenOff(lots[lotId], q)]
  {
    hide StoredRemaining, Stock;
  }

  /** The lot with that id is shown before exactly as after, less what was written off of it. */
  lemma ShownAfter(s: State, c: Call, branch: Id, lotId: Id, q: int, asOf: Date, k: Id)
    requires ChainOk(s.purchasing) && q > 0 && WriteOff(s, c, branch, lotId, q).verdict == Accepted
    requires k in BranchLots(s.purchasing.batchLots, c.tenantId, branch)
    ensures var t := WriteOff(s, c, branch, lotId, q).state;
            var lots, lots' := BranchLots(s.purchasing.batchLots, c.tenantId, branch),
                BranchLots(t.purchasing.batchLots, c.tenantId, branch);
            var r := StoredRecord(lots, StockAt(s.ledger, branch), asOf, lots[k]);
            && k in lots' && r.remaining == StoredRemaining(lots, Stock(s.ledger, lots[k].productId, branch), lots[k])
            && StoredRecord(lots', StockAt(t.ledger, branch), asOf, lots'[k])
                 == if k == lotId then r.(remaining := r.remaining - q, writtenOff := r.writtenOff + q) else r
  {
    hide StoredRemaining, Stock, ChainOk, WriteOff;
    WrittenOffShape(s, c, branch, lotId, q);
    AcceptedWriteOffFrame(s, c, branch, lotId, q, k, "");
  }

  /**
   * The branch's batch report after an accepted write-off of q, built anew from the stored lots and the ledger, is the
   * one before it, except that the lot shows q less remaining and q more written off, or is gone if q was all it held.
   */
  lemma AcceptedWriteOffReports(s: State, c: Call, branch: Id, lotId: Id, q: int, asOf: Date, before: BatchReport,
                                after: BatchReport)
    requires ChainOk(s.purchasing) && q > 0 && WriteOff(s, c, branch, lotId, q).verdict == Accepted
    requires BranchReports(s, c.tenantId, branch, asOf, before)
    requires BranchReports(WriteOff(s, c, branch, lotId, q).state, c.tenantId, branch, asOf, after)
    ensures after.untracked == before.untracked
    ensures forall r: LotRecord :: r.lotId != lotId ==> (r in after.records <==> r in before.records)
    ensures exists r :: r in before.records && r.lotId == lotId
    ensures forall r :: r in before.records && r.lotId == lotId ==>
      if r.remaining == q then forall x :: x in after.records ==> x.lotId != lotId
      else r.(remaining := r.remaining - q, writtenOff := r.writtenOff + q) in after.records
  {
    hide StoredRemaining, Stock, SumMap, ChainOk, WriteOff, ReportsStored, BranchLots, StoredRecord, UntrackedOf, LeftInLot;
    var t := WriteOff(s, c, branch, lotId, q).state;
    var lots, lots' := BranchLots(s.purchasing.batchLots, c.tenantId, branch),
        BranchLots(t.purchasing.batchLots, c.tenantId, branch);
    var stock, stock' := StockAt(s.ledger, branch), StockAt(t.ledger, branch);
    WrittenOffShape(s, c, branch, lotId, q);
    RemainingCovers(s, c, branch, lotId, q);
    forall p ensures UntrackedOf(t, c.tenantId, branch, p) == UntrackedOf(s, c.tenantId, branch, p) {
      AcceptedWriteOffFrame(s, c, branch, lotId, q, lotId, p);
    }
    SameUntracked(s, t, c.tenantId, branch, asOf, before, after);
    OwnLots(s, c.tenantId, branch);
    OwnLots(t, c.tenantId, branch);
    forall r: LotRecord ensures r.lotId != lotId ==> (r in after.records <==> r in before.records) {
      ShownById(lots, stock, asOf, before, r);
      ShownById(lots', stock', asOf, after, r);
      if r.lotId in lots { ShownAfter(s, c, branch, lotId, q, asOf, r.lotId); }
    }
    var own := StoredRecord(lots, stock, asOf, lots[lotId]);
    ShownAfter(s, c, branch, lotId, q, asOf, lotId);
    StoredRecordId(lots, stock, asOf, lots[lotId]);
    ShownById(lots, stock, asOf, before, own);
    ShownById(lots', stock', asOf, after, own.(remaining := own.remaining - q, writtenOff := own.writtenOff + q));
    forall x | x in before.records && x.lotId == lotId ensures x == own { ShownById(lots, stock, asOf, before, x); }
    forall x | x in after.records && x.lotId == lotId ensures own.remaining > q {
      ShownById(lots', stock', asOf, after, x);
    }
  }

  predicate OwnLot(s: State, tenantId: Id, branch: Id, k: Id)
  {
    && k in s.purchasing.batchLots && s.purchasing.batchLots[k].tenantId == tenantId
    && s.purchasing.batchLots[k].branchId == branch
  }

  /** Every lot of the branch is of a stored product, so the branch's report can be built. */
  ghost predicate LotsKnown(s: State, tenantId: Id, branch: Id)
  {
    forall k :: OwnLot(s, tenantId, branch, k) ==> s.purchasing.batchLots[k].productId in s.registry.products
  }

  /**
   * A write-off is accepted exactly when the branch's report, built beforehand, lists the lot with at least that much
   * remaining; it crashes exactly when the lot is the branch's but the report cannot be built, and is refused otherwise.
   */
  lemma WriteOffIsExact(s: State, c: Call, branch: Id, lotId: Id, q: int, asOf: Date, report: BatchReport)
    requires ChainOk(s.purchasing) && q > 0 && BranchReports(s, c.tenantId, branch, asOf, report)
    ensures var v := WriteOff(s, c, branch, lotId, q).verdict;
            var listed := exists r :: r in report.records && r.lotId == lotId && q <= r.remaining;
            && (v == Accepted <==> (LotsKnown(s, c.tenantId, branch) && listed))
            && (v == Crashed <==> (OwnLot(s, c.tenantId, branch, lotId) && !LotsKnown(s, c.tenantId, branch)))
            && (listed ==> OwnLot(s, c.tenantId, branch, lotId))
  {
    hide StoredRemaining, Stock, ChainOk, ReportsStored;
    var lots, stock := BranchLots(s.purchasing.batchLots, c.tenantId, branch), StockAt(s.ledger, branch);
    OwnIds(s);
    OwnLots(s, c.tenantId, branch);
    assert forall k :: OwnLot(s, c.tenantId, branch, k) <==> k in lots;
    if lotId in lots {
      var own := StoredRecord(lots, stock, asOf, lots[lotId]);
      assert own.lotId == lotId && own.remaining == StoredRemaining(lots, Stock(s.ledger, lots[lotId].productId, branch),
                                                                    lots[lotId]);
      ShownById(lots, stock, asOf, report, own);
    }
    forall r | r in report.records && r.lotId == lotId
      ensures lotId in lots && r == StoredRecord(lots, stock, asOf, lots[lotId]) && r.remaining > 0
    {
      ShownById(lots, stock, asOf, report, r);
    }
  }

  lemma OwnIds(s: State)
    requires ChainOk(s.purchasing)
    ensures forall k :: k in s.purchasing.batchLots ==> s.purchasing.batchLots[k].id == k
  {
    hide ReceiptsOk, BillsOk, LotOk, LotsCover;
  }

  lemma OwnLots(s: State, tenantId: Id, branch: Id)
    requires forall k :: k in s.purchasing.batchLots ==> s.purchasing.batchLots[k].id == k
    ensures var lots := BranchLots(s.purchasing.batchLots, tenantId, branch); forall k :: k in lots ==> lots[k].id == k
  {
  }

  lemma StoredRecordId(lots: Lots, stock: Id -> int, asOf: Date, lot: BatchLot)
    ensures StoredRecord(lots, stock, asOf, lot).lotId == lot.id
  {
    hide StoredRemaining;
  }

  lemma RemainingCovers(s: State, c: Call, branch: Id, lotId: Id, q: int)
    requires ChainOk(s.purchasing) && WriteOff(s, c, branch, lotId, q).verdict == Accepted
    ensures var lots := BranchLots(s.purchasing.batchLots, c.tenantId, branch);
            && lotId in lots && q <= StoredRemaining(lots, Stock(s.ledger, lots[lotId].productId, branch), lots[lotId])
    ensures forall k :: k in s.purchasing.batchLots ==> s.purchasing.batchLots[k].id == k
    ensures var t := WriteOff(s, c, branch, lotId, q).state;
            forall k :: k in t.purchasing.batchLots ==> t.purchasing.batchLots[k].id == k
  {
    hide StoredRemaining, Stock, ReceiptsOk, BillsOk, LotOk, LotsCover;
  }
}
