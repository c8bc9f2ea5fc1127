/** Batch lots and first-expiry-first-out depletion (batch_tracking.py). */
module BatchTracking {
  import opened Folds
  import opened Inventory
  import opened Entities
  import opened Money
  import opened Ordering

  datatype ExpiryStatus = Expired | ExpiringSoon | Fresh

  datatype LotRecord =
    LotRecord(lotId: Id, productId: Id, batchNumber: string, expiry: Date, daysToExpiry: int, received: int,
              writtenOff: int, remaining: int, status: ExpiryStatus)

  datatype BatchReport =
    BatchReport(trackedLots: nat, expiringSoon: nat, expired: nat, untracked: int, records: seq<LotRecord>)

  function StatusOf(daysToExpiry: int): ExpiryStatus
  {
    if daysToExpiry < 0 then Expired else if daysToExpiry <= 30 then ExpiringSoon else Fresh
  }

  function LotKey(): BatchLot -> Key
  {
    (l: BatchLot) => By(l.expiry, ByText(l.batchNumber, ByText(l.id, End)))
  }

  /** `a` expires before `b`, batch number and id breaking ties. */
  predicate Before(a: BatchLot, b: BatchLot)
  {
    LotKey()(a) != LotKey()(b) && KeyLeq(LotKey()(a), LotKey()(b))
  }

  function Net(): BatchLot -> int { (l: BatchLot) => Max(l.quantity - l.writtenOff, 0) }

  function NetOf(productId: Id): BatchLot -> int
  {
    (l: BatchLot) => if l.productId == productId then Net()(l) else 0
  }

  /** Net quantity of a product's lots that expire before `lot`. */
  function NetAhead(lot: BatchLot): BatchLot -> int
  {
    (l: BatchLot) => if l.productId == lot.productId && Before(l, lot) then Net()(l) else 0
  }

  function Depleted(stock: int, tracked: int): int { tracked - Min(stock, tracked) }

  /** The part of a lot above the depletion mark, once the lots of a product are laid end to end in expiry order. */
  function Above(ahead: int, net: int, depleted: int): int { Max(0, Min(net, ahead + net - depleted)) }

  /** What is left of `lot` when `stock` units of its product are on hand. */
  function LotRemaining(lots: seq<BatchLot>, stock: int, lot: BatchLot): int
  {
    Above(Sum(lots, NetAhead(lot)), Net()(lot), Depleted(stock, Sum(lots, NetOf(lot.productId))))
  }

  function StockOf(stock: map<Id, int>, productId: Id): int { if productId in stock then stock[productId] else 0 }

  function Left(lots: seq<BatchLot>, stock: map<Id, int>): BatchLot -> int
  {
    (l: BatchLot) => LotRemaining(lots, StockOf(stock, l.productId), l)
  }

  function LeftOf(lots: seq<BatchLot>, stock: map<Id, int>, productId: Id): BatchLot -> int
  {
    (l: BatchLot) => if l.productId == productId then Left(lots, stock)(l) else 0
  }

  function HasLeft(lots: seq<BatchLot>, stock: map<Id, int>): BatchLot -> bool
  {
    (l: BatchLot) => Left(lots, stock)(l) > 0
  }

  function MakeRecord(l: BatchLot, asOf: Date, remaining: int): LotRecord
  {
    var days := l.expiry - asOf;
    LotRecord(l.id, l.productId, l.batchNumber, l.expiry, days, l.quantity, l.writtenOff, remaining, StatusOf(days))
  }

  function RecordOf(lots: seq<BatchLot>, stock: map<Id, int>, asOf: Date): BatchLot -> LotRecord
  {
    (l: BatchLot) => MakeRecord(l, asOf, Left(lots, stock)(l))
  }

  function Untracked(lots: seq<BatchLot>, stock: map<Id, int>): Id -> int
  {
    (p: Id) => Max(StockOf(stock, p) - Sum(lots, NetOf(p)), 0)
  }

  function ProductOf(): BatchLot -> Id { (l: BatchLot) => l.productId }
  function IsOf(productId: Id): BatchLot -> bool { (l: BatchLot) => l.productId == productId }
  function Itself(): BatchLot -> BatchLot { (l: BatchLot) => l }

  function Group(lots: seq<BatchLot>, productId: Id): seq<BatchLot> { FilterMap(lots, IsOf(productId), Itself()) }

  /** The lots of a product in expiry order. */
  function Queue(lots: seq<BatchLot>, productId: Id): seq<BatchLot> { SortBy(Group(lots, productId), LotKey()) }

  ghost predicate DistinctIds(lots: seq<BatchLot>)
  {
    forall i, j :: 0 <= i < j < |lots| ==> lots[i].id != lots[j].id
  }

  // ---- the queue of a product ----

  lemma {:induction false} GroupKeepsOrder(lots: seq<BatchLot>, p: Id)
    requires DistinctIds(lots)
    ensures DistinctIds(Group(lots, p))
    ensures forall l :: l in Group(lots, p) <==> l in lots && l.productId == p
  {
    if |lots| > 0 {
      var n := |lots| - 1;
      GroupKeepsOrder(lots[..n], p);
      assert forall l :: l in lots <==> l in lots[..n] || l == lots[n];
    }
  }

  lemma QueueFacts(lots: seq<BatchLot>, p: Id)
    requires DistinctIds(lots)
    ensures var q := Queue(lots, p);
            && Sorted(q, LotKey()) && DistinctIds(q)
            && (forall l :: l in q <==> l in lots && l.productId == p)
  {
    var g, q := Group(lots, p), Queue(lots, p);
    GroupKeepsOrder(lots, p);
    SortBySorts(g, LotKey());
    NoDuplicatesPermuted(g, q);
    forall l ensures l in q <==> l in g { SortByMembers(g, LotKey(), l); }
    forall i, j | 0 <= i < j < |q| ensures q[i].id != q[j].id {
      assert q[i] in g && q[j] in g && q[i] != q[j];
    }
  }

  lemma BeforeIsStrict(a: BatchLot, b: BatchLot)
    ensures !(Before(a, b) && Before(b, a))
    ensures a.id != b.id ==> Before(a, b) || Before(b, a)
  {
    KeyTotal(LotKey()(a), LotKey()(b));
    if a.id != b.id { assert LotKey()(a) != LotKey()(b); }
  }

  lemma BeforeTransitive(a: BatchLot, b: BatchLot, c: BatchLot)
    requires Before(a, b) && Before(b, c)
    ensures Before(a, c)
  {
    KeyTransitive(LotKey()(a), LotKey()(b), LotKey()(c));
    KeyTotal(LotKey()(a), LotKey()(b));
  }

  lemma {:induction false} QueueSum(lots: seq<BatchLot>, p: Id, f: BatchLot -> int, g: BatchLot -> int)
    requires forall i :: 0 <= i < |lots| ==> g(lots[i]) == if lots[i].productId == p then f(lots[i]) else 0
    ensures Sum(Queue(lots, p), f) == Sum(lots, g)
  {
    FilterMapSum(lots, IsOf(p), Itself(), f, g);
    SumPermuted(Group(lots, p), Queue(lots, p), f);
  }

  lemma AheadInQueue(q: seq<BatchLot>, p: Id, i: nat, j: nat)
    requires Sorted(q, LotKey()) && DistinctIds(q) && i < |q| && j < |q|
    requires q[i].productId == p && q[j].productId == p
    ensures NetAhead(q[i])(q[j]) == if j < i then Net()(q[j]) else 0
  {
    BeforeIsStrict(q[j], q[i]);
    if j < i {
      assert KeyLeq(LotKey()(q[j]), LotKey()(q[i]));
      BeforeOrSame(q[j], q[i]);
    } else if i < j {
      assert KeyLeq(LotKey()(q[i]), LotKey()(q[j]));
      BeforeOrSame(q[i], q[j]);
    }
  }

  lemma BeforeOrSame(a: BatchLot, b: BatchLot)
    requires KeyLeq(LotKey()(a), LotKey()(b)) && a.id != b.id
    ensures Before(a, b) && !Before(b, a)
  {
    BeforeIsStrict(a, b);
    assert LotKey()(a) != LotKey()(b);
  }

  lemma {:induction false} PrefixSum(q: seq<BatchLot>, p: Id, i: nat)
    requires Sorted(q, LotKey()) && DistinctIds(q) && i < |q|
    requires forall l :: l in q ==> l.productId == p
    ensures Sum(q, NetAhead(q[i])) == Sum(q[..i], Net())
  {
    forall j | 0 <= j < |q| ensures NetAhead(q[i])(q[j]) == if j < i then Net()(q[j]) else 0 {
      AheadInQueue(q, p, i, j);
    }
    SplitSum(q, i, NetAhead(q[i]), Net());
  }

  lemma {:induction false} SplitSum<T>(q: seq<T>, i: nat, f: T -> int, g: T -> int)
    requires i <= |q| && forall j :: 0 <= j < |q| ==> f(q[j]) == if j < i then g(q[j]) else 0
    ensures Sum(q, f) == Sum(q[..i], g)
  {
    hide Sum;
    assert q == q[..i] + q[i..];
    SumConcat(q[..i], q[i..], f);
    SumSame(q[..i], f, g);
    SumZero(q[i..], f);
  }

  /** In the queue, what lies ahead of a lot is the lots before it. */
  lemma {:induction false} AheadIsPrefix(lots: seq<BatchLot>, p: Id, i: nat)
    requires DistinctIds(lots) && i < |Queue(lots, p)|
    ensures Sum(lots, NetAhead(Queue(lots, p)[i])) == Sum(Queue(lots, p)[..i], Net())
  {
    var q := Queue(lots, p);
    QueueFacts(lots, p);
    assert q[i] in q;
    QueueSum(lots, p, NetAhead(q[i]), NetAhead(q[i]));
    PrefixSum(q, p, i);
  }

  lemma AboveStep(ahead: int, net: int, depleted: int)
    requires ahead >= 0 && net >= 0 && depleted >= 0
    ensures Max(0, ahead - depleted) + Above(ahead, net, depleted) == Max(0, ahead + net - depleted)
  {
  }

  function Mark(lots: seq<BatchLot>, stock: map<Id, int>, p: Id): int
  {
    Depleted(StockOf(stock, p), Sum(lots, NetOf(p)))
  }

  lemma LeftInQueue(lots: seq<BatchLot>, stock: map<Id, int>, p: Id, i: nat)
    requires DistinctIds(lots) && i < |Queue(lots, p)|
    ensures var q := Queue(lots, p);
            Left(lots, stock)(q[i]) == Above(Sum(q[..i], Net()), Net()(q[i]), Mark(lots, stock, p))
  {
    AheadIsPrefix(lots, p, i);
    QueueFacts(lots, p);
    assert Queue(lots, p)[i] in Queue(lots, p);
  }

  /** Along the queue the remaining quantities add up to the part above the depletion mark. */
  lemma {:induction false} PrefixRemaining(lots: seq<BatchLot>, stock: map<Id, int>, p: Id, i: nat)
    requires DistinctIds(lots) && i <= |Queue(lots, p)|
    ensures Sum(Queue(lots, p)[..i], Left(lots, stock))
         == Max(0, Sum(Queue(lots, p)[..i], Net()) - Mark(lots, stock, p))
  {
    hide LotRemaining, SortBy, FilterMap, Sum, Above, Left, Mark;
    var q := Queue(lots, p);
    MarkIsNonNegative(lots, stock, p);
    if i == 0 {
      SumEmpty(q[..0], Left(lots, stock));
      SumEmpty(q[..0], Net());
    } else {
      PrefixRemaining(lots, stock, p, i - 1);
      LeftInQueue(lots, stock, p, i - 1);
      SumPrefix(q, i - 1, Left(lots, stock));
      SumPrefix(q, i - 1, Net());
      NetsAreNonNegative(q[..i - 1]);
      AboveStep(Sum(q[..i - 1], Net()), Net()(q[i - 1]), Mark(lots, stock, p));
    }
  }

  lemma {:induction false} NetsAreNonNegative(q: seq<BatchLot>)
    ensures Sum(q, Net()) >= 0
    ensures forall l :: Net()(l) >= 0
  {
    SumNonNegative(q, Net());
  }

  lemma MarkIsNonNegative(lots: seq<BatchLot>, stock: map<Id, int>, p: Id)
    ensures Mark(lots, stock, p) >= 0
  {
  }

  /** Depletion is exact: the lots of a product hold min(stock, tracked) in all, nothing when stock is negative. */
  lemma {:induction false} RemainingIsExact(lots: seq<BatchLot>, stock: map<Id, int>, p: Id)
    requires DistinctIds(lots)
    ensures Sum(lots, LeftOf(lots, stock, p)) == Max(0, Min(StockOf(stock, p), Sum(lots, NetOf(p))))
    ensures Sum(lots, LeftOf(lots, stock, p)) + Untracked(lots, stock)(p) == Max(0, StockOf(stock, p))
  {
    LeftAdded(lots, stock, p);
    forall i | 0 <= i < |lots| ensures NetOf(p)(lots[i]) >= 0 {
      assert Net()(lots[i]) >= 0;
    }
    SumNonNegative(lots, NetOf(p));
  }

  lemma {:induction false} LeftAdded(lots: seq<BatchLot>, stock: map<Id, int>, p: Id)
    requires DistinctIds(lots)
    ensures Sum(lots, LeftOf(lots, stock, p)) == Max(0, Sum(lots, NetOf(p)) - Mark(lots, stock, p))
  {
    hide LotRemaining, SortBy, FilterMap, Sum, Left, Mark, Max;
    var q := Queue(lots, p);
    PrefixRemaining(lots, stock, p, |q|);
    assert q[..|q|] == q;
    QueueSum(lots, p, Left(lots, stock), LeftOf(lots, stock, p));
    QueueSum(lots, p, Net(), NetOf(p));
  }

  // ---- first expiry, first out, over the stored lots ----

  /** `LotRemaining` over the stored lots of a branch. */
  ghost function StoredRemaining(lots: map<Id, BatchLot>, stock: int, lot: BatchLot): int
  {
    Above(SumMap(lots, NetAhead(lot)), Net()(lot), Depleted(stock, SumMap(lots, NetOf(lot.productId))))
  }

  lemma ListedRemaining(lots: map<Id, BatchLot>, ks: seq<Id>, xs: seq<BatchLot>, stock: int, lot: BatchLot)
    requires Listing(lots, ks, xs)
    ensures LotRemaining(xs, stock, lot) == StoredRemaining(lots, stock, lot)
  {
    ListingSum(lots, ks, xs, NetAhead(lot));
    ListingSum(lots, ks, xs, NetOf(lot.productId));
  }

  lemma {:induction false} SumMapLe<K, V>(m: map<K, V>, f: V -> int, g: V -> int)
    requires forall k :: k in m ==> f(m[k]) <= g(m[k])
    ensures SumMap(m, f) <= SumMap(m, g)
    decreases |m|
  {
    if m != map[] {
      var k :| k in m;
      SumMapRemove(m, k, f);
      SumMapRemove(m, k, g);
      SumMapLe(m - {k}, f, g);
    }
  }

  lemma AheadInherited(l: BatchLot, a: BatchLot, b: BatchLot)
    requires a.productId == b.productId && Before(a, b)
    ensures NetAhead(a)(l) <= NetAhead(b)(l)
  {
    assert Net()(l) >= 0;
    if l.productId == a.productId && Before(l, a) { BeforeTransitive(l, a, b); }
  }

  /** A lot and everything ahead of it lies ahead of every later lot of the product. */
  lemma {:induction false} AheadGrows(lots: map<Id, BatchLot>, a: Id, lot: BatchLot)
    requires a in lots && lots[a].productId == lot.productId && Before(lots[a], lot)
    ensures SumMap(lots, NetAhead(lots[a])) + Net()(lots[a]) <= SumMap(lots, NetAhead(lot))
  {
    var first := lots[a];
    SumMapRemove(lots, a, NetAhead(first));
    SumMapRemove(lots, a, NetAhead(lot));
    BeforeIsStrict(first, first);
    forall k | k in lots - {a} ensures NetAhead(first)((lots - {a})[k]) <= NetAhead(lot)((lots - {a})[k]) {
      AheadInherited(lots[k], first, lot);
    }
    SumMapLe(lots - {a}, NetAhead(first), NetAhead(lot));
  }

  /** If a lot was depleted at all, every lot of the product expiring earlier is fully used. */
  lemma FirstExpiryFirstOut(lots: map<Id, BatchLot>, stock: int, a: Id, b: Id)
    requires a in lots && b in lots && lots[a].productId == lots[b].productId && Before(lots[a], lots[b])
    requires StoredRemaining(lots, stock, lots[b]) < Net()(lots[b])
    ensures StoredRemaining(lots, stock, lots[a]) == 0
  {
    AheadGrows(lots, a, lots[b]);
  }

  /** A lot that is neither full nor used up. */
  ghost predicate PartlyUsed(lots: map<Id, BatchLot>, stock: int, k: Id)
    requires k in lots
  {
    0 < StoredRemaining(lots, stock, lots[k]) < Net()(lots[k])
  }

  /** At most one lot of a product is partly used. */
  lemma AtMostOnePartlyUsed(lots: map<Id, BatchLot>, stock: int, a: Id, b: Id)
    requires a in lots && b in lots && lots[a].productId == lots[b].productId && forall k :: k in lots ==> lots[k].id == k
    requires PartlyUsed(lots, stock, a) && PartlyUsed(lots, stock, b)
    ensures a == b
  {
    hide StoredRemaining;
    if a != b {
      BeforeIsStrict(lots[a], lots[b]);
      if Before(lots[a], lots[b]) {
        FirstExpiryFirstOut(lots, stock, a, b);
      } else {
        FirstExpiryFirstOut(lots, stock, b, a);
      }
    }
  }

  function WrittenOff(lot: BatchLot, quantity: int): BatchLot { lot.(writtenOff := lot.writtenOff + quantity) }

  /** The mark does not move when `q` units leave both a lot and the stock. */
  lemma {:induction false} MarkStays(lots: map<Id, BatchLot>, stock: int, id: Id, q: int)
    requires id in lots && 0 < q <= StoredRemaining(lots, stock, lots[id])
    ensures var p := lots[id].productId;
            var lots' := lots[id := WrittenOff(lots[id], q)];
            && SumMap(lots', NetOf(p)) == SumMap(lots, NetOf(p)) - q
            && Depleted(stock - q, SumMap(lots', NetOf(p))) == Depleted(stock, SumMap(lots, NetOf(p)))
            && (forall other :: other != p ==> SumMap(lots', NetOf(other)) == SumMap(lots, NetOf(other)))
  {
    var p, lot' := lots[id].productId, WrittenOff(lots[id], q);
    SumMapUpdate(lots, id, lot', NetOf(p));
    forall other | other != p
      ensures SumMap(lots[id := lot'], NetOf(other)) == SumMap(lots, NetOf(other))
    {
      SumMapUpdate(lots, id, lot', NetOf(other));
    }
  }

  /** What lies ahead of lot `k` shrinks by `q` when an earlier lot is written off, and not otherwise. */
  lemma AheadAfterWriteOff(lots: map<Id, BatchLot>, id: Id, q: int, k: Id)
    requires id in lots && k in lots && (forall j :: j in lots ==> lots[j].id == j)
    requires 0 < q <= Net()(lots[id]) && lots[k].productId == lots[id].productId
    ensures var lots' := lots[id := WrittenOff(lots[id], q)];
            SumMap(lots', NetAhead(lots'[k]))
              == SumMap(lots, NetAhead(lots[k])) - if Before(lots[id], lots[k]) then q else 0
  {
    var lot' := WrittenOff(lots[id], q);
    var lots' := lots[id := lot'];
    SumMapUpdate(lots, id, lot', NetAhead(lots[k]));
    hide SumMap;
    assert Net()(lot') == Net()(lots[id]) - q;
    assert Before(lot', lots[k]) == Before(lots[id], lots[k]);
    assert NetAhead(lots[k])(lots[id]) == if Before(lots[id], lots[k]) then Net()(lots[id]) else 0;
    assert NetAhead(lots[k])(lot') == if Before(lots[id], lots[k]) then Net()(lot') else 0;
    SumMapSame(lots', NetAhead(lots[k]), NetAhead(lots'[k]));
  }

  lemma AboveAfterWriteOff(ahead: int, net: int, depleted: int, q: int)
    requires 0 < q <= Above(ahead, net, depleted)
    ensures Above(ahead, net - q, depleted) == Above(ahead, net, depleted) - q
  {
  }

  /**
   * Writing `q` units off one lot and off the stock lowers that lot's remaining quantity by exactly q when the
   * whole allocation is recomputed, and no other lot of the product changes.
   */
  lemma WriteOffFrame(lots: map<Id, BatchLot>, stock: int, id: Id, q: int, k: Id)
    requires id in lots && k in lots && (forall j :: j in lots ==> lots[j].id == j)
    requires 0 < q <= StoredRemaining(lots, stock, lots[id])
    requires lots[k].productId == lots[id].productId
    ensures var lots' := lots[id := WrittenOff(lots[id], q)];
            StoredRemaining(lots', stock - q, lots'[k])
              == StoredRemaining(lots, stock, lots[k]) - if k == id then q else 0
  {
    hide SumMap, KeyLeq;
    MarkStays(lots, stock, id, q);
    AheadAfterWriteOff(lots, id, q, k);
    BeforeIsStrict(lots[id], lots[id]);
    if k == id {
      AboveAfterWriteOff(SumMap(lots, NetAhead(lots[id])), Net()(lots[id]),
                         Depleted(stock, SumMap(lots, NetOf(lots[id].productId))), q);
    } else if Before(lots[id], lots[k]) {
      AheadGrows(lots, id, lots[k]);
    }
  }

  /** Lots of other products do not notice a write-off. */
  lemma WriteOffLeavesOtherProducts(lots: map<Id, BatchLot>, stock: int, id: Id, q: int, k: Id, otherStock: int)
    requires id in lots && k in lots
    requires 0 < q <= StoredRemaining(lots, stock, lots[id])
    requires lots[k].productId != lots[id].productId
    ensures StoredRemaining(lots[id := WrittenOff(lots[id], q)], otherStock, lots[k])
         == StoredRemaining(lots, otherStock, lots[k])
  {
    MarkStays(lots, stock, id, q);
    SumMapUpdate(lots, id, WrittenOff(lots[id], q), NetAhead(lots[k]));
  }

  /** Stock beyond the tracked lots stays untracked. */
  lemma {:induction false} WriteOffKeepsUntracked(lots: map<Id, BatchLot>, stock: int, id: Id, q: int)
    requires id in lots && 0 < q <= StoredRemaining(lots, stock, lots[id])
    ensures var p := lots[id].productId;
            Max(stock - q - SumMap(lots[id := WrittenOff(lots[id], q)], NetOf(p)),
                0) == Max(stock - SumMap(lots, NetOf(p)), 0)
  {
    MarkStays(lots, stock, id, q);
  }

  // ---- the report ----

  function RecordKey(): LotRecord -> Key
  {
    (r: LotRecord) => By(r.expiry, ByText(r.batchNumber, ByText(r.lotId, End)))
  }

  /** Records of one product, in queue order. */
  function ProductRecords(lots: seq<BatchLot>, stock: map<Id, int>, asOf: Date, p: Id): seq<LotRecord>
  {
    FilterMap(Queue(lots, p), HasLeft(lots, stock), RecordOf(lots, stock, asOf))
  }

  function AllRecords(lots: seq<BatchLot>, stock: map<Id, int>, asOf: Date, ps: seq<Id>): seq<LotRecord>
  {
    if |ps| == 0 then []
    else AllRecords(lots, stock, asOf, ps[..|ps| - 1]) + ProductRecords(lots, stock, asOf, ps[|ps| - 1])
  }

  lemma {:induction false} AllRecordsMember(lots: seq<BatchLot>, stock: map<Id, int>, asOf: Date, ps: seq<Id>, r: LotRecord)
    requires DistinctIds(lots)
    ensures r in AllRecords(lots, stock, asOf, ps)
       <==> exists l :: l in lots && l.productId in ps && HasLeft(lots, stock)(l) && RecordOf(lots, stock, asOf)(l) == r
  {
    hide LotRemaining, MakeRecord, FilterMap, SortBy;
    if |ps| > 0 {
      AllRecordsMember(lots, stock, asOf, ps[..|ps| - 1], r);
      ProductRecordsMember(lots, stock, asOf, ps[|ps| - 1], r);
      assert forall x :: x in ps <==> x in ps[..|ps| - 1] || x == ps[|ps| - 1];
    }
  }

  lemma ProductRecordsMember(lots: seq<BatchLot>, stock: map<Id, int>, asOf: Date, p: Id, r: LotRecord)
    requires DistinctIds(lots)
    ensures r in ProductRecords(lots, stock, asOf, p)
       <==> exists l :: l in lots && l.productId == p && HasLeft(lots, stock)(l) && RecordOf(lots, stock, asOf)(l) == r
  {
    hide LotRemaining, MakeRecord, FilterMap, SortBy;
    var q := Queue(lots, p);
    FilterMapMember(q, HasLeft(lots, stock), RecordOf(lots, stock, asOf), r);
    QueueFacts(lots, p);
    assert forall l :: l in q <==> exists i :: 0 <= i < |q| && q[i] == l;
  }

  function RecordLot(): LotRecord -> Id { (r: LotRecord) => r.lotId }
  function LotId(): BatchLot -> Id { (l: BatchLot) => l.id }

  lemma RecordNamesLot(lots: seq<BatchLot>, stock: map<Id, int>, asOf: Date, l: BatchLot)
    ensures RecordLot()(RecordOf(lots, stock, asOf)(l)) == LotId()(l) == l.id
  {
    hide LotRemaining;
    assert RecordOf(lots, stock, asOf)(l) == MakeRecord(l, asOf, Left(lots, stock)(l));
  }

  /** No lot is listed twice. */
  lemma {:induction false} AllRecordsDistinct(lots: seq<BatchLot>, stock: map<Id, int>, asOf: Date, ps: seq<Id>)
    requires DistinctIds(lots) && NoDuplicates(ps)
    ensures DistinctBy(AllRecords(lots, stock, asOf, ps), RecordLot())
  {
    hide LotRemaining, FilterMap, SortBy;
    if |ps| > 0 {
      var n := |ps| - 1;
      var rest, more := AllRecords(lots, stock, asOf, ps[..n]), ProductRecords(lots, stock, asOf, ps[n]);
      AllRecordsDistinct(lots, stock, asOf, ps[..n]);
      QueueFacts(lots, ps[n]);
      forall l ensures RecordLot()(RecordOf(lots, stock, asOf)(l)) == LotId()(l) == l.id {
        RecordNamesLot(lots, stock, asOf, l);
      }
      DistinctFiltered(Queue(lots, ps[n]), HasLeft(lots, stock), RecordOf(lots, stock, asOf), LotId(), RecordLot());
      forall i, j | 0 <= i < |rest| && 0 <= j < |more| ensures RecordLot()(rest[i]) != RecordLot()(more[j]) {
        AllRecordsMember(lots, stock, asOf, ps[..n], rest[i]);
        ProductRecordsMember(lots, stock, asOf, ps[n], more[j]);
        assert rest[i] in rest && more[j] in more && ps[n] !in ps[..n];
        var a :| a in lots && a.productId in ps[..n] && RecordOf(lots, stock, asOf)(a) == rest[i];
        var b :| b in lots && b.productId == ps[n] && RecordOf(lots, stock, asOf)(b) == more[j];
        assert a != b;
      }
    }
  }

  /** `_build_branch_batch_report` lists exactly the lots that still hold stock, each once with its remaining quantity. */
  ghost predicate ReportsLots(lots: seq<BatchLot>, stock: map<Id, int>, asOf: Date, report: BatchReport)
  {
    && (forall l :: l in lots && HasLeft(lots, stock)(l) ==> RecordOf(lots, stock, asOf)(l) in report.records)
    && (forall r :: r in report.records ==>
          exists l :: l in lots && HasLeft(lots, stock)(l) && RecordOf(lots, stock, asOf)(l) == r)
    && DistinctBy(report.records, RecordLot())
  }

  lemma {:induction false} RecordsAreReported(lots: seq<BatchLot>, stock: map<Id, int>, asOf: Date, report: BatchReport)
    requires DistinctIds(lots)
    requires report.records == SortBy(AllRecords(lots, stock, asOf, GroupKeys(lots, ProductOf())), RecordKey())
    ensures ReportsLots(lots, stock, asOf, report) && Sorted(report.records, RecordKey())
  {
    var ps := GroupKeys(lots, ProductOf());
    var all := AllRecords(lots, stock, asOf, ps);
    SortBySorts(all, RecordKey());
    AllRecordsDistinct(lots, stock, asOf, ps);
    DistinctPermuted(all, report.records, RecordLot());
    forall r ensures r in report.records <==> r in all {
      SortByMembers(all, RecordKey(), r);
    }
    forall l | l in lots && HasLeft(lots, stock)(l) ensures RecordOf(lots, stock, asOf)(l) in all {
      var i :| 0 <= i < |lots| && lots[i] == l;
      assert ProductOf()(lots[i]) in ps;
      AllRecordsMember(lots, stock, asOf, ps, RecordOf(lots, stock, asOf)(l));
    }
    forall r | r in all
      ensures exists l :: l in lots && HasLeft(lots, stock)(l) && RecordOf(lots, stock, asOf)(l) == r
    {
      AllRecordsMember(lots, stock, asOf, ps, r);
    }
  }

  /** Stock that no lot of the product accounts for. */
  ghost function UntrackedStored(lots: map<Id, BatchLot>, stock: Id -> int): Id -> int
  {
    (p: Id) => Max(stock(p) - SumMap(lots, NetOf(p)), 0)
  }

  ghost function StoredRecord(lots: map<Id, BatchLot>, stock: Id -> int, asOf: Date, lot: BatchLot): LotRecord
  {
    MakeRecord(lot, asOf, StoredRemaining(lots, stock(lot.productId), lot))
  }

  ghost predicate IsShown(lots: map<Id, BatchLot>, stock: Id -> int, asOf: Date, r: LotRecord, k: Id)
  {
    && k in lots && StoredRemaining(lots, stock(lots[k].productId), lots[k]) > 0
    && r == StoredRecord(lots, stock, asOf, lots[k])
  }

  predicate ProductsOf(lots: map<Id, BatchLot>, ps: seq<Id>)
  {
    && NoDuplicates(ps) && (forall k :: k in lots ==> lots[k].productId in ps)
    && (forall p :: p in ps ==> exists k :: k in lots && lots[k].productId == p)
  }

  /** What a report over the stored lots shows: every lot that holds stock, once, and the untracked stock. */
  ghost predicate ReportsStored(lots: map<Id, BatchLot>, stock: Id -> int, asOf: Date, report: BatchReport)
  {
    && (forall r :: r in report.records <==> exists k :: IsShown(lots, stock, asOf, r, k))
    && DistinctBy(report.records, RecordLot())
    && (exists ps :: ProductsOf(lots, ps) && report.untracked == Sum(ps, UntrackedStored(lots, stock)))
  }

  lemma ListedRecord(lots: map<Id, BatchLot>, ks: seq<Id>, xs: seq<BatchLot>, onHand: map<Id, int>, stock: Id -> int,
                     asOf: Date, lot: BatchLot)
    requires Listing(lots, ks, xs) && StockOf(onHand, lot.productId) == stock(lot.productId)
    ensures HasLeft(xs, onHand)(lot) <==> StoredRemaining(lots, stock(lot.productId), lot) > 0
    ensures RecordOf(xs, onHand, asOf)(lot) == StoredRecord(lots, stock, asOf, lot)
  {
    hide LotRemaining, StoredRemaining;
    ListedRemaining(lots, ks, xs, stock(lot.productId), lot);
    assert RecordOf(xs, onHand, asOf)(lot) == MakeRecord(lot, asOf, Left(xs, onHand)(lot));
  }

  lemma {:induction false} ListedProducts(lots: map<Id, BatchLot>, ks: seq<Id>, xs: seq<BatchLot>)
    requires Listing(lots, ks, xs)
    ensures ProductsOf(lots, GroupKeys(xs, ProductOf()))
  {
    hide GroupKeys;
    var ps := GroupKeys(xs, ProductOf());
    forall k | k in lots ensures lots[k].productId in ps {
      var i :| 0 <= i < |ks| && ks[i] == k;
      assert ProductOf()(xs[i]) in ps;
    }
    forall p | p in ps ensures exists k :: k in lots && lots[k].productId == p {
      var i :| 0 <= i < |xs| && ProductOf()(xs[i]) == p;
      assert lots[ks[i]].productId == p;
    }
  }

  /** A listing of the lots with the stock on hand of their products. */
  ghost predicate Stocked(lots: map<Id, BatchLot>, ks: seq<Id>, xs: seq<BatchLot>, onHand: map<Id, int>, stock: Id -> int)
  {
    Listing(lots, ks, xs) && forall k :: k in lots ==> StockOf(onHand, lots[k].productId) == stock(lots[k].productId)
  }

  lemma {:induction false} ListedUntracked(lots: map<Id, BatchLot>, ks: seq<Id>, xs: seq<BatchLot>, onHand: map<Id, int>,
                                           stock: Id -> int, ps: seq<Id>)
    requires Stocked(lots, ks, xs, onHand, stock) && ProductsOf(lots, ps)
    ensures Sum(ps, Untracked(xs, onHand)) == Sum(ps, UntrackedStored(lots, stock))
  {
    hide Sum, SumMap, Listing;
    forall i | 0 <= i < |ps| ensures Untracked(xs, onHand)(ps[i]) == UntrackedStored(lots, stock)(ps[i]) {
      assert ps[i] in ps;
      ListingSum(lots, ks, xs, NetOf(ps[i]));
    }
    SumSame(ps, Untracked(xs, onHand), UntrackedStored(lots, stock));
  }

  lemma ListedLot(lots: map<Id, BatchLot>, ks: seq<Id>, xs: seq<BatchLot>, onHand: map<Id, int>, stock: Id -> int,
                  asOf: Date, k: Id)
    requires Stocked(lots, ks, xs, onHand, stock) && k in lots
    ensures lots[k] in xs
    ensures HasLeft(xs, onHand)(lots[k]) <==> StoredRemaining(lots, stock(lots[k].productId), lots[k]) > 0
    ensures RecordOf(xs, onHand, asOf)(lots[k]) == StoredRecord(lots, stock, asOf, lots[k])
  {
    hide StoredRemaining, LotRemaining, HasLeft, RecordOf, StoredRecord;
    var i :| 0 <= i < |ks| && ks[i] == k;
    assert xs[i] == lots[k];
    ListedRecord(lots, ks, xs, onHand, stock, asOf, lots[k]);
  }

  lemma ListedShown(lots: map<Id, BatchLot>, ks: seq<Id>, xs: seq<BatchLot>, onHand: map<Id, int>, stock: Id -> int,
                    asOf: Date, report: BatchReport, r: LotRecord)
    requires Stocked(lots, ks, xs, onHand, stock) && ReportsLots(xs, onHand, asOf, report)
    ensures r in report.records <==> exists k :: IsShown(lots, stock, asOf, r, k)
  {
    hide StoredRemaining, HasLeft, RecordOf, StoredRecord, DistinctBy;
    if r in report.records {
      var l :| l in xs && HasLeft(xs, onHand)(l) && RecordOf(xs, onHand, asOf)(l) == r;
      var i :| 0 <= i < |xs| && xs[i] == l;
      ListedLot(lots, ks, xs, onHand, stock, asOf, ks[i]);
      assert IsShown(lots, stock, asOf, r, ks[i]);
    }
    if k :| IsShown(lots, stock, asOf, r, k) { ListedLot(lots, ks, xs, onHand, stock, asOf, k); }
  }

  /** The report built from the listed lots is that of the stored lots. */
  lemma {:induction false} ListedIsStored(lots: map<Id, BatchLot>, ks: seq<Id>, xs: seq<BatchLot>, onHand: map<Id, int>,
                                          stock: Id -> int, asOf: Date, report: BatchReport)
    requires Stocked(lots, ks, xs, onHand, stock) && ReportsLots(xs, onHand, asOf, report)
    requires report.untracked == Sum(GroupKeys(xs, ProductOf()), Untracked(xs, onHand))
    ensures ReportsStored(lots, stock, asOf, report)
  {
    hide Stocked, Sum, GroupKeys, IsShown, ProductsOf, UntrackedStored, Untracked, HasLeft, RecordOf;
    forall r ensures r in report.records <==> exists k :: IsShown(lots, stock, asOf, r, k) {
      ListedShown(lots, ks, xs, onHand, stock, asOf, report, r);
    }
    StockedIsListing(lots, ks, xs, onHand, stock);
    ListedProducts(lots, ks, xs);
    ListedUntracked(lots, ks, xs, onHand, stock, GroupKeys(xs, ProductOf()));
  }

  lemma StockedIsListing(lots: map<Id, BatchLot>, ks: seq<Id>, xs: seq<BatchLot>, onHand: map<Id, int>, stock: Id -> int)
    requires Stocked(lots, ks, xs, onHand, stock)
    ensures Listing(lots, ks, xs)
  {
    hide Listing;
  }

  /** A report over lots filed under their own ids shows a record exactly when it is that lot's own and not empty. */
  lemma ShownById(lots: map<Id, BatchLot>, stock: Id -> int, asOf: Date, report: BatchReport, r: LotRecord)
    requires ReportsStored(lots, stock, asOf, report) && forall k :: k in lots ==> lots[k].id == k
    ensures r in report.records
       <==> r.lotId in lots && r.remaining > 0 && r == StoredRecord(lots, stock, asOf, lots[r.lotId])
  {
    hide StoredRemaining, Sum, ProductsOf, DistinctBy;
    if r in report.records {
      var k :| IsShown(lots, stock, asOf, r, k);
      assert k == r.lotId;
    }
    if r.lotId in lots && r.remaining > 0 && r == StoredRecord(lots, stock, asOf, lots[r.lotId]) {
      assert IsShown(lots, stock, asOf, r, r.lotId);
    }
  }

  lemma ConsumedIsBelowMark(ahead: int, net: int, mark: int)
    requires net >= 0
    ensures net - Min(net, Max(0, mark - ahead)) == Above(ahead, net, mark)
    ensures Max(0, mark - ahead) - Min(net, Max(0, mark - ahead)) == Max(0, mark - (ahead + net))
  {
  }

  /** One pass of the greedy loop. */
  lemma DepleteStep(lots: seq<BatchLot>, stock: map<Id, int>, p: Id, i: nat, depletion: int)
    requires DistinctIds(lots) && i < |Queue(lots, p)|
    requires depletion == Max(0, Mark(lots, stock, p) - Sum(Queue(lots, p)[..i], Net()))
    ensures var q, net := Queue(lots, p), Net()(Queue(lots, p)[i]);
            && net - Min(net, depletion) == Left(lots, stock)(q[i])
            && depletion - Min(net, depletion) == Max(0, Mark(lots, stock, p) - Sum(q[..i + 1], Net()))
  {
    var q := Queue(lots, p);
    assert Net()(q[i]) >= 0;
    LeftInQueue(lots, stock, p, i);
    ConsumedIsBelowMark(Sum(q[..i], Net()), Net()(q[i]), Mark(lots, stock, p));
    SumPrefix(q, i, Net());
  }

  lemma RecordStep(lots: seq<BatchLot>, stock: map<Id, int>, asOf: Date, p: Id, i: nat, remaining: int)
    requires i < |Queue(lots, p)| && remaining == Left(lots, stock)(Queue(lots, p)[i])
    ensures var q := Queue(lots, p);
            var keep, row := HasLeft(lots, stock), RecordOf(lots, stock, asOf);
            FilterMap(q[..i + 1], keep, row)
              == FilterMap(q[..i], keep, row) + if remaining > 0 then [MakeRecord(q[i], asOf, remaining)] else []
  {
    FilterMapPrefix(Queue(lots, p), i, HasLeft(lots, stock), RecordOf(lots, stock, asOf));
  }

  method TrackedTotal(queue: seq<BatchLot>) returns (tracked: int)
    ensures tracked == Sum(queue, Net())
  {
    tracked := 0;
    for i := 0 to |queue|
      invariant tracked == Sum(queue[..i], Net())
    {
      SumPrefix(queue, i, Net());
      tracked := tracked + Max(queue[i].quantity - queue[i].writtenOff, 0);
    }
    assert queue[..|queue|] == queue;
  }

  /** The greedy loop over one product's queue hands every lot what lies above the depletion mark. */
  method DepleteQueue(lots: seq<BatchLot>, stock: map<Id, int>, asOf: Date, p: Id, queue: seq<BatchLot>, depleted: int)
    returns (records: seq<LotRecord>)
    requires DistinctIds(lots) && queue == Queue(lots, p) && depleted == Mark(lots, stock, p) >= 0
    ensures records == ProductRecords(lots, stock, asOf, p)
  {
    hide Sum, FilterMap, LotRemaining, MakeRecord, SortBy;
    var depletion := depleted;
    records := [];
    SumEmpty(queue[..0], Net());
    FilterMapEmpty(queue[..0], HasLeft(lots, stock), RecordOf(lots, stock, asOf));
    for i := 0 to |queue|
      invariant records == FilterMap(queue[..i], HasLeft(lots, stock), RecordOf(lots, stock, asOf))
      invariant depletion == Max(0, Mark(lots, stock, p) - Sum(queue[..i], Net()))
    {
      var net := Max(queue[i].quantity - queue[i].writtenOff, 0);
      var consumed := Min(net, depletion);
      DepleteStep(lots, stock, p, i, depletion);
      RecordStep(lots, stock, asOf, p, i, net - consumed);
      depletion := depletion - consumed;
      if net - consumed > 0 {
        records := records + [MakeRecord(queue[i], asOf, net - consumed)];
      }
    }
    assert queue[..|queue|] == queue;
  }

  lemma GroupStep(lots: seq<BatchLot>, i: nat, k: Id)
    requires i < |lots|
    ensures Group(lots[..i + 1], k) == Group(lots[..i], k) + if k == lots[i].productId then [lots[i]] else []
  {
    FilterMapPrefix(lots, i, IsOf(k), Itself());
  }

  lemma GroupsStartEmpty(lots: seq<BatchLot>)
    ensures GroupKeys(lots[..0], ProductOf()) == []
    ensures forall k :: Group(lots[..0], k) == []
  {
  }

  method GroupLots(lots: seq<BatchLot>) returns (order: seq<Id>, grouped: map<Id, seq<BatchLot>>)
    ensures order == GroupKeys(lots, ProductOf())
    ensures forall p :: p in order ==> p in grouped && grouped[p] == Group(lots, p)
  {
    hide FilterMap, GroupKeys, Group;
    order, grouped := [], map[];
    GroupsStartEmpty(lots);
    for i := 0 to |lots|
      invariant order == GroupKeys(lots[..i], ProductOf())
      invariant forall p :: p in grouped <==> p in order
      invariant forall p :: (if p in grouped then grouped[p] else []) == Group(lots[..i], p)
    {
      var p := lots[i].productId;
      GroupKeysPrefix(lots, i, ProductOf());
      forall k { GroupStep(lots, i, k); }
      if p !in grouped { order := order + [p]; }
      grouped := grouped[p := (if p in grouped then grouped[p] else []) + [lots[i]]];
    }
    assert lots[..|lots|] == lots;
  }

  lemma TrackedAndUntracked(lots: seq<BatchLot>, stock: map<Id, int>, p: Id)
    ensures var onHand, tracked := StockOf(stock, p), Sum(Queue(lots, p), Net());
            && Mark(lots, stock, p) == tracked - Min(onHand, tracked) >= 0
            && Untracked(lots, stock)(p) == Max(onHand - tracked, 0)
  {
    hide Sum, SortBy, FilterMap;
    QueueSum(lots, p, Net(), NetOf(p));
  }

  method BuildBatchExpiryReport(lots: seq<BatchLot>, stock: map<Id, int>, asOf: Date) returns (report: BatchReport)
    requires DistinctIds(lots)
    ensures ReportsLots(lots, stock, asOf, report) && Sorted(report.records, RecordKey())
    ensures report.untracked == Sum(GroupKeys(lots, ProductOf()), Untracked(lots, stock))
    ensures report.trackedLots == |report.records|
    ensures report.expired == Sum(report.records, HasStatus(Expired))
    ensures report.expiringSoon == Sum(report.records, HasStatus(ExpiringSoon))
  {
    hide Sum, FilterMap, SortBy, GroupKeys;
    var order, grouped := GroupLots(lots);
    var records, untracked := [], 0;
    SumEmpty(order[..0], Untracked(lots, stock));
    for j := 0 to |order|
      invariant records == AllRecords(lots, stock, asOf, order[..j])
      invariant untracked == Sum(order[..j], Untracked(lots, stock))
    {
      var p := order[j];
      var queue := SortBy(grouped[p], LotKey());
      var stockOnHand := if p in stock then stock[p] else 0;
      var tracked := TrackedTotal(queue);
      TrackedAndUntracked(lots, stock, p);
      var more := DepleteQueue(lots, stock, asOf, p, queue, tracked - Min(stockOnHand, tracked));
      SumPrefix(order, j, Untracked(lots, stock));
      assert order[..j + 1][..j] == order[..j];
      records := records + more;
      untracked := untracked + Max(stockOnHand - tracked, 0);
    }
    assert order[..|order|] == order;
    records := SortBy(records, RecordKey());
    var expired := CountStatus(records, Expired);
    var soon := CountStatus(records, ExpiringSoon);
    report := BatchReport(|records|, soon, expired, untracked, records);
    RecordsAreReported(lots, stock, asOf, report);
  }

  function HasStatus(status: ExpiryStatus): LotRecord -> int
  {
    (r: LotRecord) => if r.status == status then 1 else 0
  }

  method CountStatus(records: seq<LotRecord>, status: ExpiryStatus) returns (n: nat)
    ensures n == Sum(records, HasStatus(status))
  {
    n := 0;
    for i := 0 to |records|
      invariant n == Sum(records[..i], HasStatus(status))
    {
      SumPrefix(records, i, HasStatus(status));
      if records[i].status == status { n := n + 1; }
    }
    assert records[..|records|] == records;
  }

  // ---- lot intake ----

  datatype LotInput = LotInput(productId: Id, batchNumber: string, quantity: int, expiry: Date)

  function LineProduct(): OrderLine -> Id { (l: OrderLine) => l.productId }
  function LineQuantity(): OrderLine -> int { (l: OrderLine) => l.quantity }
  function InputProduct(): LotInput -> Id { (l: LotInput) => l.productId }
  function InputQuantity(): LotInput -> int { (l: LotInput) => l.quantity }

  /** Quantity of a product on receipt lines. */
  function ReceivedOf(lines: seq<OrderLine>): Id -> int { GroupTotal(lines, LineProduct(), LineQuantity()) }

  /** Quantity of a product over lot inputs. */
  function BatchedOf(lots: seq<LotInput>): Id -> int { GroupTotal(lots, InputProduct(), InputQuantity()) }

  /** The lots name exactly the received products, and add up to the received quantity of each. */
  predicate LotsMatch(lines: seq<OrderLine>, lots: seq<LotInput>)
  {
    && (forall p :: p in GroupKeys(lines, LineProduct()) ==> p in GroupKeys(lots, InputProduct()))
    && (forall p :: p in GroupKeys(lots, InputProduct()) ==> p in GroupKeys(lines, LineProduct()))
    && (forall p :: p in GroupKeys(lines, LineProduct()) ==> ReceivedOf(lines)(p) == BatchedOf(lots)(p))
  }

  method ValidateBatchLots(lines: seq<OrderLine>, lots: seq<LotInput>) returns (ok: bool)
    ensures ok == LotsMatch(lines, lots)
  {
    hide Sum, GroupKeys;
    var received := Tally(lines, LineProduct(), LineQuantity());
    var batched := Tally(lots, InputProduct(), InputQuantity());
    ok := received.Keys == batched.Keys && forall p :: p in received ==> batched[p] == received[p];
    TotalsDecide(received, batched, GroupKeys(lines, LineProduct()), GroupKeys(lots, InputProduct()),
                 ReceivedOf(lines), BatchedOf(lots));
  }

  lemma TotalsDecide(a: map<Id, int>, b: map<Id, int>, ks: seq<Id>, js: seq<Id>, f: Id -> int, g: Id -> int)
    requires forall p :: p in a <==> p in ks
    requires forall p :: p in b <==> p in js
    requires forall p :: p in a ==> a[p] == f(p)
    requires forall p :: p in b ==> b[p] == g(p)
    ensures (a.Keys == b.Keys && forall p :: p in a ==> b[p] == a[p])
       <==> (forall p :: p in ks ==> p in js) && (forall p :: p in js ==> p in ks) && (forall p :: p in ks ==> f(p) == g(p))
  {
    if (forall p :: p in ks ==> p in js) && (forall p :: p in js ==> p in ks) {
      assert forall p :: p in a <==> p in b;
    }
  }

  /** Matching lots account for the received quantity of every product, received or not. */
  lemma MatchedLotsCoverReceipt(lines: seq<OrderLine>, lots: seq<LotInput>, p: Id)
    requires LotsMatch(lines, lots)
    ensures ReceivedOf(lines)(p) == BatchedOf(lots)(p)
  {
    if p !in GroupKeys(lines, LineProduct()) {
      SumZero(lines, Restrict(LineQuantity(), LineProduct(), p));
      SumZero(lots, Restrict(InputQuantity(), InputProduct(), p));
    }
  }

  lemma {:induction false} ReceivedIsPositive(lines: seq<OrderLine>, p: Id)
    requires forall i :: 0 <= i < |lines| ==> lines[i].quantity > 0
    ensures p in GroupKeys(lines, LineProduct()) <==> ReceivedOf(lines)(p) > 0
  {
    hide Sum, GroupKeys;
    var f := Restrict(LineQuantity(), LineProduct(), p);
    SumNonNegative(lines, f);
    if p in GroupKeys(lines, LineProduct()) {
      var i :| 0 <= i < |lines| && LineProduct()(lines[i]) == p;
      assert f(lines[i]) > 0;
    } else {
      SumZero(lines, f);
    }
  }

  lemma {:induction false} BatchedIsPositive(lots: seq<LotInput>, p: Id)
    requires forall i :: 0 <= i < |lots| ==> lots[i].quantity > 0
    ensures p in GroupKeys(lots, InputProduct()) <==> BatchedOf(lots)(p) > 0
  {
    hide Sum, GroupKeys;
    var f := Restrict(InputQuantity(), InputProduct(), p);
    SumNonNegative(lots, f);
    if p in GroupKeys(lots, InputProduct()) {
      var i :| 0 <= i < |lots| && InputProduct()(lots[i]) == p;
      assert f(lots[i]) > 0;
    } else {
      SumZero(lots, f);
    }
  }

  /** Over positive quantities, lots match a receipt exactly when they add up to what was received of every product. */
  lemma MatchIsCover(lines: seq<OrderLine>, lots: seq<LotInput>)
    requires forall i :: 0 <= i < |lines| ==> lines[i].quantity > 0
    requires forall i :: 0 <= i < |lots| ==> lots[i].quantity > 0
    ensures LotsMatch(lines, lots) <==> forall p :: ReceivedOf(lines)(p) == BatchedOf(lots)(p)
  {
    hide ReceivedOf, BatchedOf, GroupKeys;
    forall p
      ensures p in GroupKeys(lines, LineProduct()) <==> ReceivedOf(lines)(p) > 0
      ensures p in GroupKeys(lots, InputProduct()) <==> BatchedOf(lots)(p) > 0
    {
      ReceivedIsPositive(lines, p);
      BatchedIsPositive(lots, p);
    }
    if LotsMatch(lines, lots) {
      forall p ensures ReceivedOf(lines)(p) == BatchedOf(lots)(p) { MatchedLotsCoverReceipt(lines, lots, p); }
    }
  }

  /** Stock goes out of the lot with the earlier date first, whatever the batch numbers. */
  lemma EarlierDateFirst(lots: map<Id, BatchLot>, stock: int, a: Id, b: Id)
    requires a in lots && b in lots && lots[a].productId == lots[b].productId && lots[a].expiry < lots[b].expiry
    requires StoredRemaining(lots, stock, lots[b]) < Max(lots[b].quantity - lots[b].writtenOff, 0)
    ensures StoredRemaining(lots, stock, lots[a]) == 0
  {
    hide StoredRemaining;
    assert Before(lots[a], lots[b]);
    FirstExpiryFirstOut(lots, stock, a, b);
  }

  /** A record shows a lot as expired once its date is past, and as expiring soon on it and up to thirty days before. */
  lemma RecordSaysWhen(l: BatchLot, asOf: Date, remaining: int)
    ensures var r := MakeRecord(l, asOf, remaining);
            && (r.status == Expired <==> l.expiry < asOf) && (r.status == ExpiringSoon <==> asOf <= l.expiry <= asOf + 30)
            && r.lotId == l.id && r.received == l.quantity && r.writtenOff == l.writtenOff && r.remaining == remaining
  {
  }
}
