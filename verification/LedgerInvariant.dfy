/** The stock ledger reconciles with the stored documents. */
module LedgerInvariant {
  import opened Folds
  import opened Inventory
  import opened Entities
  import opened StateModel
  import opened BatchTracking
  import opened Handlers

  function ReceivedAt(item: Id, branch: Id): GoodsReceipt -> int
  {
    (g: GoodsReceipt) => if g.branchId == branch then Sum(Bare(g.lines), Ordered(item)) else 0
  }

  function SentBackFrom(item: Id, branch: Id): SupplierReturnNote -> int
  {
    (n: SupplierReturnNote) => if n.branchId == branch then Sum(n.lines, Ordered(item)) else 0
  }

  function WrittenOffAt(item: Id, branch: Id): BatchLot -> int
  {
    (l: BatchLot) => if l.branchId == branch && l.productId == item then l.writtenOff else 0
  }

  ghost predicate Reconciled(ledger: Ledger, p: Purchasing, item: Id, branch: Id)
  {
    && Sum(ledger, OfKind(PurchaseReceipt, item, branch)) == SumMap(p.goodsReceipts, ReceivedAt(item, branch))
    && Sum(ledger, OfKind(SupplierReturn, item, branch)) == -SumMap(p.supplierReturns, SentBackFrom(item, branch))
    && Sum(ledger, OfKind(ExpiryWriteOff, item, branch)) == -SumMap(p.batchLots, WrittenOffAt(item, branch))
  }

  /**
   * For every item and branch, receipt entries add up to the stored receipts, supplier-return entries to minus the
   * stored return notes and write-off entries to minus the lots' written-off quantities; transfers of an item add up
   * to zero over all branches.
   */
  ghost predicate LedgerReconciles(ledger: Ledger, p: Purchasing)
  {
    && (forall i, b :: Reconciled(ledger, p, i, b))
    && (forall i :: Sum(ledger, Transferred(i)) == 0)
  }

  lemma {:induction false} PostedTransfers(lines: seq<Line>, branch: Id, kind: EntryKind, sign: int, item: Id)
    requires kind != TransferOut && kind != TransferIn
    ensures Sum(Map(lines, Post(branch, kind, sign)), Transferred(item)) == 0
  {
    var posted := Map(lines, Post(branch, kind, sign));
    if |lines| > 0 {
      PostedTransfers(lines[..|lines| - 1], branch, kind, sign, item);
      assert posted[..|lines| - 1] == Map(lines[..|lines| - 1], Post(branch, kind, sign));
    }
  }

  /** Posting lines under a kind moves the total of that kind at that branch and no other total. */
  lemma {:induction false} PostedTotals(ledger: Ledger, lines: seq<Line>, branch: Id, kind: EntryKind, sign: int,
                                        k: EntryKind, i: Id, b: Id)
    requires sign == 1 || sign == -1
    requires kind != TransferOut && kind != TransferIn
    ensures var ledger' := ledger + Map(lines, Post(branch, kind, sign));
            && Sum(ledger', OfKind(k, i, b))
                 == Sum(ledger, OfKind(k, i, b)) + (if k == kind && b == branch then sign * Sum(lines, Ordered(i)) else 0)
            && Sum(ledger', Transferred(i)) == Sum(ledger, Transferred(i))
  {
    hide Map, Sum;
    var posted := Map(lines, Post(branch, kind, sign));
    SumConcat(ledger, posted, OfKind(k, i, b));
    SumConcat(ledger, posted, Transferred(i));
    PostedByKind(lines, branch, kind, sign, k, i, b);
    PostedTransfers(lines, branch, kind, sign, i);
  }

  predicate SellingKind(kind: EntryKind) { kind == SaleIssue || kind == CustomerReturn }

  /** Sales, customer returns and exchanges leave the reconciliation alone. */
  lemma SellingReconciles(ledger: Ledger, p: Purchasing, lines: seq<Line>, branch: Id, kind: EntryKind, sign: int)
    requires LedgerReconciles(ledger, p) && SellingKind(kind) && (sign == 1 || sign == -1)
    ensures LedgerReconciles(ledger + Map(lines, Post(branch, kind, sign)), p)
  {
    hide Map, Sum, SumMap;
    var ledger' := ledger + Map(lines, Post(branch, kind, sign));
    forall i, b ensures Reconciled(ledger', p, i, b) {
      assert Reconciled(ledger, p, i, b);
      PostedTotals(ledger, lines, branch, kind, sign, PurchaseReceipt, i, b);
      PostedTotals(ledger, lines, branch, kind, sign, SupplierReturn, i, b);
      PostedTotals(ledger, lines, branch, kind, sign, ExpiryWriteOff, i, b);
    }
    forall i ensures Sum(ledger', Transferred(i)) == 0 {
      PostedTotals(ledger, lines, branch, kind, sign, PurchaseReceipt, i, branch);
    }
  }

  lemma ReceiveReconciles(ledger: Ledger, p: Purchasing, id: Id, g: GoodsReceipt)
    requires LedgerReconciles(ledger, p) && id !in p.goodsReceipts
    ensures LedgerReconciles(ledger + Map(Bare(g.lines), Post(g.branchId, PurchaseReceipt, 1)),
                             p.(goodsReceipts := p.goodsReceipts[id := g]))
  {
    hide Map, Sum, SumMap;
    var lines := Bare(g.lines);
    var ledger', p' := ledger + Map(lines, Post(g.branchId, PurchaseReceipt, 1)),
        p.(goodsReceipts := p.goodsReceipts[id := g]);
    forall i, b ensures Reconciled(ledger', p', i, b) {
      assert Reconciled(ledger, p, i, b);
      PostedTotals(ledger, lines, g.branchId, PurchaseReceipt, 1, PurchaseReceipt, i, b);
      PostedTotals(ledger, lines, g.branchId, PurchaseReceipt, 1, SupplierReturn, i, b);
      PostedTotals(ledger, lines, g.branchId, PurchaseReceipt, 1, ExpiryWriteOff, i, b);
      SumMapInsert(p.goodsReceipts, id, g, ReceivedAt(i, b));
    }
    forall i ensures Sum(ledger', Transferred(i)) == 0 {
      PostedTotals(ledger, lines, g.branchId, PurchaseReceipt, 1, PurchaseReceipt, i, g.branchId);
    }
  }

  lemma SendBackReconciles(ledger: Ledger, p: Purchasing, id: Id, n: SupplierReturnNote)
    requires LedgerReconciles(ledger, p) && id !in p.supplierReturns
    ensures LedgerReconciles(ledger + Map(n.lines, Post(n.branchId, SupplierReturn, -1)),
                             p.(supplierReturns := p.supplierReturns[id := n]))
  {
    hide Map, Sum, SumMap;
    var ledger', p' := ledger + Map(n.lines, Post(n.branchId, SupplierReturn, -1)),
        p.(supplierReturns := p.supplierReturns[id := n]);
    forall i, b ensures Reconciled(ledger', p', i, b) {
      assert Reconciled(ledger, p, i, b);
      PostedTotals(ledger, n.lines, n.branchId, SupplierReturn, -1, PurchaseReceipt, i, b);
      PostedTotals(ledger, n.lines, n.branchId, SupplierReturn, -1, SupplierReturn, i, b);
      PostedTotals(ledger, n.lines, n.branchId, SupplierReturn, -1, ExpiryWriteOff, i, b);
      SumMapInsert(p.supplierReturns, id, n, SentBackFrom(i, b));
    }
    forall i ensures Sum(ledger', Transferred(i)) == 0 {
      PostedTotals(ledger, n.lines, n.branchId, SupplierReturn, -1, SupplierReturn, i, n.branchId);
    }
  }

  lemma WriteOffReconciles(ledger: Ledger, p: Purchasing, id: Id, q: int)
    requires LedgerReconciles(ledger, p) && id in p.batchLots
    ensures var lot := p.batchLots[id];
            LedgerReconciles(ledger + [Entry(lot.productId, lot.branchId, -q, ExpiryWriteOff)],
                             p.(batchLots := p.batchLots[id := WrittenOff(lot, q)]))
  {
    hide Sum, SumMap;
    var lot := p.batchLots[id];
    var e := Entry(lot.productId, lot.branchId, -q, ExpiryWriteOff);
    var p' := p.(batchLots := p.batchLots[id := WrittenOff(lot, q)]);
    forall i, b ensures Reconciled(ledger + [e], p', i, b) {
      assert Reconciled(ledger, p, i, b);
      SumSnoc(ledger, e, OfKind(PurchaseReceipt, i, b));
      SumSnoc(ledger, e, OfKind(SupplierReturn, i, b));
      SumSnoc(ledger, e, OfKind(ExpiryWriteOff, i, b));
      SumMapUpdate(p.batchLots, id, WrittenOff(lot, q), WrittenOffAt(i, b));
    }
    forall i ensures Sum(ledger + [e], Transferred(i)) == 0 {
      SumSnoc(ledger, e, Transferred(i));
    }
  }

  lemma {:induction false} TransfersReconcile(ledger: Ledger, p: Purchasing, source: Id, destination: Id, lines: seq<Line>)
    requires LedgerReconciles(ledger, p)
    ensures LedgerReconciles(AfterTransfers(ledger, source, destination, lines), p)
  {
    hide Sum, SumMap, AfterTransfers;
    forall i, b ensures Reconciled(AfterTransfers(ledger, source, destination, lines), p, i, b) {
      assert Reconciled(ledger, p, i, b);
      TransfersConserve(ledger, source, destination, lines, PurchaseReceipt, i, b);
      TransfersConserve(ledger, source, destination, lines, SupplierReturn, i, b);
      TransfersConserve(ledger, source, destination, lines, ExpiryWriteOff, i, b);
    }
    forall i ensures Sum(AfterTransfers(ledger, source, destination, lines), Transferred(i)) == 0 {
      TransfersConserve(ledger, source, destination, lines, PurchaseReceipt, i, source);
    }
  }

  lemma {:induction false} CountsReconcile(ledger: Ledger, p: Purchasing, branch: Id, lines: seq<Line>)
    requires LedgerReconciles(ledger, p)
    ensures LedgerReconciles(AfterCounts(ledger, branch, lines), p)
  {
    hide Sum, SumMap, AfterCounts;
    forall i, b ensures Reconciled(AfterCounts(ledger, branch, lines), p, i, b) {
      assert Reconciled(ledger, p, i, b);
      CountsPostVariancesOnly(ledger, branch, lines, PurchaseReceipt, i, b);
      CountsPostVariancesOnly(ledger, branch, lines, SupplierReturn, i, b);
      CountsPostVariancesOnly(ledger, branch, lines, ExpiryWriteOff, i, b);
    }
    forall i ensures Sum(AfterCounts(ledger, branch, lines), Transferred(i)) == 0 {
      CountsPostVariancesOnly(ledger, branch, lines, PurchaseReceipt, i, branch);
    }
  }

  // ---- lot intake ----

  /** Totals over the lots after an intake, for a quantity that depends on the lot's input only. */
  lemma {:induction false} StoreLotsSum(lots: map<Id, BatchLot>, c: Call, g: GoodsReceipt, branch: Id,
      inputs: seq<LotInput>, f: BatchLot -> int, h: LotInput -> int)
    requires forall n, m: nat :: n != m ==> c.ids(n) != c.ids(m)
    requires forall n: nat :: c.ids(n) !in lots
    requires forall i, id :: 0 <= i < |inputs| ==> f(NewLot(c, g, branch, inputs[i], id)) == h(inputs[i])
    ensures SumMap(StoreLots(lots, c, g, branch, inputs), f) == SumMap(lots, f) + Sum(inputs, h)
    ensures forall k :: k in StoreLots(lots, c, g, branch, inputs) <==>
        k in lots || exists i :: 0 <= i < |inputs| && c.ids(i) == k
    ensures forall k :: k in lots ==> StoreLots(lots, c, g, branch, inputs)[k] == lots[k]
    ensures forall i :: 0 <= i < |inputs| ==>
        StoreLots(lots, c, g, branch, inputs)[c.ids(i)] == NewLot(c, g, branch, inputs[i], c.ids(i))
  {
    hide SumMap;
    if |inputs| > 0 {
      var n := |inputs| - 1;
      StoreLotsSum(lots, c, g, branch, inputs[..n], f, h);
      SumMapInsert(StoreLots(lots, c, g, branch, inputs[..n]), c.ids(n), NewLot(c, g, branch, inputs[n], c.ids(n)), f);
      assert forall i :: 0 <= i < n ==> inputs[..n][i] == inputs[i];
    }
  }

  function NoQuantity(): LotInput -> int { (l: LotInput) => 0 }

  lemma {:induction false} IntakeReconciles(ledger: Ledger, p: Purchasing, c: Call, g: GoodsReceipt, branch: Id,
                                            inputs: seq<LotInput>)
    requires LedgerReconciles(ledger, p)
    requires forall n, m: nat :: n != m ==> c.ids(n) != c.ids(m)
    requires forall n: nat :: c.ids(n) !in p.batchLots
    ensures LedgerReconciles(ledger, p.(batchLots := StoreLots(p.batchLots, c, g, branch, inputs)))
  {
    hide Sum, SumMap, StoreLots;
    var p' := p.(batchLots := StoreLots(p.batchLots, c, g, branch, inputs));
    forall i, b ensures Reconciled(ledger, p', i, b) {
      assert Reconciled(ledger, p, i, b);
      StoreLotsSum(p.batchLots, c, g, branch, inputs, WrittenOffAt(i, b), NoQuantity());
      SumZero(inputs, NoQuantity());
    }
  }
}
