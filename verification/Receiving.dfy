/** The receiving board (receiving.py), and that it promises exactly what the receipt handler does. */
module Receiving {
  import opened Folds
  import opened Inventory
  import opened Entities
  import opened Ordering
  import opened StateModel
  import opened Handlers
  import opened ChainInvariant

  /** The keyword arguments of the board. */
  datatype Desk =
    Desk(branchId: Id, orders: seq<PurchaseOrder>, receipts: seq<GoodsReceipt>, suppliers: map<Id, Supplier>)

  datatype ReceivingStatus = Ready | Blocked | Received

  datatype Reason = AwaitingApproval | OrderRejected | ApprovalNotRequested

  datatype BoardRecord =
    BoardRecord(orderId: Id, supplierName: string, approval: Approval, status: ReceivingStatus, canReceive: bool,
                reason: Option<Reason>, receiptId: Option<Id>)

  datatype ReceivingBoard = ReceivingBoard(blocked: int, ready: int, received: int, records: seq<BoardRecord>)

  function ReceiptOrder(): GoodsReceipt -> Id { (g: GoodsReceipt) => g.orderId }
  function ReceivedHere(d: Desk): GoodsReceipt -> bool { (g: GoodsReceipt) => g.branchId == d.branchId }
  function OrderedHere(d: Desk): PurchaseOrder -> bool { (o: PurchaseOrder) => o.branchId == d.branchId }

  /** `{goods_receipt["purchase_order_id"]: goods_receipt ...}` over the branch's receipts. */
  function ReceiptsByOrder(d: Desk): map<Id, GoodsReceipt>
  {
    Rebuild(FilterMap(d.receipts, ReceivedHere(d), Whole()), ReceiptOrder(), Whole())
  }

  function SupplierLabel(d: Desk, supplierId: Id): string
  {
    if supplierId in d.suppliers then d.suppliers[supplierId].name else supplierId
  }

  function MakeRecord(d: Desk, byOrder: map<Id, GoodsReceipt>, o: PurchaseOrder): BoardRecord
  {
    var receipt := if o.id in byOrder then Some(byOrder[o.id].id) else None;
    var (status, canReceive, reason) :=
      if receipt.Some? then (Received, false, None)
      else match o.status
           case Approved => (Ready, true, None)
           case PendingApproval => (Blocked, false, Some(AwaitingApproval))
           case Rejected => (Blocked, false, Some(OrderRejected))
           case NotRequested => (Blocked, false, Some(ApprovalNotRequested));
    BoardRecord(o.id, SupplierLabel(d, o.supplierId), o.status, status, canReceive, reason, receipt)
  }

  function RecordOf(d: Desk, byOrder: map<Id, GoodsReceipt>): PurchaseOrder -> BoardRecord
  {
    (o: PurchaseOrder) => MakeRecord(d, byOrder, o)
  }

  function InState(status: ReceivingStatus): BoardRecord -> int { (r: BoardRecord) => if r.status == status then 1 else 0 }

  function Priority(status: ReceivingStatus): int { match status case Ready => 0 case Blocked => 1 case Received => 2 }

  function BoardOrder(): BoardRecord -> Key
  {
    (r: BoardRecord) => By(Priority(r.status), ByText(r.supplierName, ByText(r.orderId, End)))
  }

  function BoardRecords(d: Desk): seq<BoardRecord> { FilterMap(d.orders, OrderedHere(d), RecordOf(d, ReceiptsByOrder(d))) }

  function Board(d: Desk): ReceivingBoard
  {
    var records := SortBy(BoardRecords(d), BoardOrder());
    ReceivingBoard(Sum(records, InState(Blocked)), Sum(records, InState(Ready)), Sum(records, InState(Received)), records)
  }

  method BuildReceivingBoard(d: Desk) returns (board: ReceivingBoard)
    ensures board == Board(d)
  {
    hide Sum, FilterMap, SortBy, Rebuild, MakeRecord;
    var mine := Select(d.receipts, ReceivedHere(d));
    var byOrder := Index(mine, ReceiptOrder());
    var records: seq<BoardRecord> := [];
    FilterMapEmpty(d.orders[..0], OrderedHere(d), RecordOf(d, byOrder));
    for i := 0 to |d.orders|
      invariant records == FilterMap(d.orders[..i], OrderedHere(d), RecordOf(d, byOrder))
    {
      FilterMapPrefix(d.orders, i, OrderedHere(d), RecordOf(d, byOrder));
      if d.orders[i].branchId == d.branchId { records := records + [MakeRecord(d, byOrder, d.orders[i])]; }
    }
    assert d.orders[..|d.orders|] == d.orders;
    records := SortBy(records, BoardOrder());
    var blocked := Total(records, InState(Blocked));
    var ready := Total(records, InState(Ready));
    var received := Total(records, InState(Received));
    board := ReceivingBoard(blocked, ready, received, records);
  }

  // ---- the board tells the truth ----

  /** The route hands the board the orders and receipts of one tenant. */
  ghost predicate Shows(d: Desk, p: Purchasing, tenantId: Id)
  {
    && (forall o :: o in d.orders <==>
          o.tenantId == tenantId && exists k :: k in p.purchaseOrders && p.purchaseOrders[k] == o)
    && (forall g :: g in d.receipts <==>
          g.tenantId == tenantId && exists k :: k in p.goodsReceipts && p.goodsReceipts[k] == g)
  }

  lemma IndexedWhenReceived(d: Desk, orderId: Id)
    ensures orderId in ReceiptsByOrder(d) <==>
        exists g :: g in d.receipts && g.branchId == d.branchId && g.orderId == orderId
  {
    hide FilterMap, Rebuild;
    var mine := FilterMap(d.receipts, ReceivedHere(d), Whole());
    RebuildMember(mine, ReceiptOrder(), orderId);
    forall g ensures g in mine <==> g in d.receipts && g.branchId == d.branchId {
      FilterMapMember(d.receipts, ReceivedHere(d), Whole(), g);
    }
    if i :| 0 <= i < |mine| && ReceiptOrder()(mine[i]) == orderId { assert mine[i] in mine; }
    if g :| g in d.receipts && g.branchId == d.branchId && g.orderId == orderId {
      var i :| 0 <= i < |mine| && mine[i] == g;
      assert ReceiptOrder()(mine[i]) == orderId;
    }
  }

  lemma ReceivedMeansReceipt(s: State, d: Desk, orderId: Id)
    requires ChainOk(s.purchasing) && orderId in s.purchasing.purchaseOrders
    requires Shows(d, s.purchasing, s.purchasing.purchaseOrders[orderId].tenantId)
    requires s.purchasing.purchaseOrders[orderId].branchId == d.branchId
    ensures orderId in ReceiptsByOrder(d) <==> AlreadyReceived(s, orderId)
  {
    hide BillsOk, LotsOk, ReceiptsByOrder;
    var p := s.purchasing;
    IndexedWhenReceived(d, orderId);
    if k :| k in p.goodsReceipts && p.goodsReceipts[k].orderId == orderId {
      assert FromOrder(p.purchaseOrders[orderId], p.goodsReceipts[k]);
      assert p.goodsReceipts[k] in d.receipts;
    }
  }

  /** The board lists the order, and `can_receive` is true exactly when creating the receipt would be accepted. */
  lemma CanReceiveIsExact(s: State, c: Call, d: Desk, orderId: Id)
    requires ChainOk(s.purchasing) && Shows(d, s.purchasing, c.tenantId)
    requires OwnedOrder(s, c, d.branchId, orderId)
    ensures var r := MakeRecord(d, ReceiptsByOrder(d), s.purchasing.purchaseOrders[orderId]);
            && r in Board(d).records && r.orderId == orderId
            && (r.canReceive <==> Receive(s, c, d.branchId, orderId).verdict == Accepted)
            && (r.status == Received <==> AlreadyReceived(s, orderId))
  {
    hide ReceiptsOk, BillsOk, LotsOk, ReceiptsByOrder, FilterMap, SortBy;
    var o := s.purchasing.purchaseOrders[orderId];
    ReceivedMeansReceipt(s, d, orderId);
    assert o in d.orders;
    var i :| 0 <= i < |d.orders| && d.orders[i] == o;
    var r := MakeRecord(d, ReceiptsByOrder(d), o);
    assert RecordOf(d, ReceiptsByOrder(d))(d.orders[i]) == r;
    FilterMapMember(d.orders, OrderedHere(d), RecordOf(d, ReceiptsByOrder(d)), r);
    SortByMembers(BoardRecords(d), BoardOrder(), r);
  }

  // ---- the counts ----

  predicate HasReceipt(d: Desk, o: PurchaseOrder)
  {
    exists g :: g in d.receipts && g.branchId == d.branchId && g.orderId == o.id
  }

  /** One for an order of the branch that is approved and has no receipt. */
  function Awaited(d: Desk): PurchaseOrder -> int
  {
    (o: PurchaseOrder) => if o.branchId == d.branchId && o.status == Approved && !HasReceipt(d, o) then 1 else 0
  }

  /** One for an order of the branch that is not approved and has no receipt. */
  function HeldUp(d: Desk): PurchaseOrder -> int
  {
    (o: PurchaseOrder) => if o.branchId == d.branchId && o.status != Approved && !HasReceipt(d, o) then 1 else 0
  }

  function Arrived(d: Desk): PurchaseOrder -> int
  {
    (o: PurchaseOrder) => if o.branchId == d.branchId && HasReceipt(d, o) then 1 else 0
  }

  lemma StateCount(d: Desk, status: ReceivingStatus, f: PurchaseOrder -> int)
    requires forall o :: f(o) == if o.branchId == d.branchId && MakeRecord(d, ReceiptsByOrder(d), o).status == status
                                 then 1 else 0
    ensures Sum(Board(d).records, InState(status)) == Sum(d.orders, f)
  {
    hide Sum, FilterMap, SortBy, MakeRecord, ReceiptsByOrder;
    SumPermuted(BoardRecords(d), Board(d).records, InState(status));
    FilterMapSum(d.orders, OrderedHere(d), RecordOf(d, ReceiptsByOrder(d)), InState(status), f);
  }

  /** Ready orders are approved and not received, blocked ones neither; the rest of the branch's orders are received. */
  lemma BoardCountsOrders(d: Desk)
    ensures var b := Board(d);
            && b.ready == Sum(d.orders, Awaited(d)) && b.blocked == Sum(d.orders, HeldUp(d))
            && b.received == Sum(d.orders, Arrived(d))
  {
    hide Sum, FilterMap, SortBy, ReceiptsByOrder, HasReceipt, BoardRecords;
    forall o: PurchaseOrder ensures HasReceipt(d, o) <==> o.id in ReceiptsByOrder(d) { IndexedMeansReceipt(d, o); }
    StateCount(d, Ready, Awaited(d));
    StateCount(d, Blocked, HeldUp(d));
    StateCount(d, Received, Arrived(d));
  }

  lemma IndexedMeansReceipt(d: Desk, o: PurchaseOrder)
    ensures HasReceipt(d, o) <==> o.id in ReceiptsByOrder(d)
  {
    hide ReceiptsByOrder;
    IndexedWhenReceived(d, o.id);
  }
}
