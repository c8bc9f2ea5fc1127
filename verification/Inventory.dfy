/** The append-only stock ledger (inventory.py). Quantities are in hundredths. */
module Inventory {
  import opened Folds

  type Id = string

  datatype EntryKind =
    | Opening | PurchaseReceipt | SaleIssue | SaleReturn | TransferOut | TransferIn | Adjustment | Damage
    | ExpiryWriteOff | CustomerReturn | SupplierReturn | CountVariance

  datatype Entry = Entry(item: Id, branch: Id, quantity: int, kind: EntryKind)

  /** A product and a quantity on a request or a document. */
  datatype Line = Line(productId: Id, quantity: int)

  datatype CountLine = CountLine(productId: Id, expected: int, counted: int, variance: int, closing: int)

  type Ledger = seq<Entry>

  function At(item: Id, branch: Id): Entry -> int
  {
    (e: Entry) => if e.item == item && e.branch == branch then e.quantity else 0
  }

  /** Quantity posted under one kind for an item at a branch. */
  function OfKind(kind: EntryKind, item: Id, branch: Id): Entry -> int
  {
    (e: Entry) => if e.kind == kind && e.item == item && e.branch == branch then e.quantity else 0
  }

  /** Quantity moved by transfers for an item, over all branches. */
  function Transferred(item: Id): Entry -> int
  {
    (e: Entry) => if (e.kind == TransferOut || e.kind == TransferIn) && e.item == item then e.quantity else 0
  }

  function Stock(ledger: Ledger, item: Id, branch: Id): int { Sum(ledger, At(item, branch)) }

  function StockAt(ledger: Ledger, branch: Id): Id -> int { (item: Id) => Stock(ledger, item, branch) }

  function Post(branch: Id, kind: EntryKind, sign: int): Line -> Entry
  {
    (l: Line) => Entry(l.productId, branch, sign * l.quantity, kind)
  }

  function Ordered(item: Id): Line -> int
  {
    (l: Line) => if l.productId == item then l.quantity else 0
  }

  /** Posting lines under one kind moves exactly that kind, at that branch, by the lines' quantities. */
  lemma {:induction false} PostedByKind(lines: seq<Line>, branch: Id, kind: EntryKind, sign: int, k: EntryKind,
      item: Id, b: Id)
    requires sign == 1 || sign == -1
    ensures Sum(Map(lines, Post(branch, kind, sign)), OfKind(k, item, b))
         == if k == kind && b == branch then sign * Sum(lines, Ordered(item)) else 0
  {
    var posted := Map(lines, Post(branch, kind, sign));
    if |lines| > 0 {
      PostedByKind(lines[..|lines| - 1], branch, kind, sign, k, item, b);
      assert posted[..|lines| - 1] == Map(lines[..|lines| - 1], Post(branch, kind, sign));
    }
  }

  function AfterTransfer(ledger: Ledger, item: Id, source: Id, destination: Id, quantity: int): Ledger
  {
    ledger + [Entry(item, source, -quantity, TransferOut), Entry(item, destination, quantity, TransferIn)]
  }

  function AfterTransfers(ledger: Ledger, source: Id, destination: Id, lines: seq<Line>): Ledger
  {
    if |lines| == 0 then ledger
    else
      var l := lines[|lines| - 1];
      AfterTransfer(AfterTransfers(ledger, source, destination, lines[..|lines| - 1]), l.productId, source, destination,
          l.quantity)
  }

  function AfterCount(ledger: Ledger, item: Id, branch: Id, counted: int): Ledger
  {
    var variance := counted - Stock(ledger, item, branch);
    if variance != 0 then ledger + [Entry(item, branch, variance, CountVariance)] else ledger
  }

  function AfterCounts(ledger: Ledger, branch: Id, lines: seq<Line>): Ledger
  {
    if |lines| == 0 then ledger
    else
      var l := lines[|lines| - 1];
      AfterCount(AfterCounts(ledger, branch, lines[..|lines| - 1]), l.productId, branch, l.quantity)
  }

  function CountResult(ledger: Ledger, branch: Id, l: Line): CountLine
  {
    var expected := Stock(ledger, l.productId, branch);
    CountLine(l.productId, expected, l.quantity, l.quantity - expected, l.quantity)
  }

  function CountResults(ledger: Ledger, branch: Id, lines: seq<Line>): seq<CountLine>
  {
    if |lines| == 0 then []
    else
      var front := lines[..|lines| - 1];
      CountResults(ledger, branch, front) + [CountResult(AfterCounts(ledger, branch, front), branch, lines[|lines| - 1])]
  }

  lemma CountSetsStock(ledger: Ledger, item: Id, branch: Id, counted: int, i: Id, b: Id)
    ensures Stock(AfterCount(ledger, item, branch, counted), i, b)
         == if i == item && b == branch then counted else Stock(ledger, i, b)
  {
    SumSnoc(ledger, Entry(item, branch, counted - Stock(ledger, item, branch), CountVariance), At(i, b));
  }

  /** The figure a count leaves for a product: its last counted quantity, or the old stock if it was not counted. */
  function LastCounted(lines: seq<Line>, item: Id, otherwise: int): int
  {
    if |lines| == 0 then otherwise
    else if lines[|lines| - 1].productId == item then lines[|lines| - 1].quantity
    else LastCounted(lines[..|lines| - 1], item, otherwise)
  }

  /** A stock count leaves every counted product at its counted figure; other products and branches are untouched. */
  lemma {:induction false} CountsSetStock(ledger: Ledger, branch: Id, lines: seq<Line>, i: Id, b: Id)
    ensures Stock(AfterCounts(ledger, branch, lines), i, b)
         == if b == branch then LastCounted(lines, i, Stock(ledger, i, b)) else Stock(ledger, i, b)
  {
    if |lines| > 0 {
      var front, l := lines[..|lines| - 1], lines[|lines| - 1];
      CountsSetStock(ledger, branch, front, i, b);
      CountSetsStock(AfterCounts(ledger, branch, front), l.productId, branch, l.quantity, i, b);
    }
  }

  /** Counts and transfers leave the totals of every other kind of entry as they were, and keep old entries. */
  lemma {:induction false} CountsPostVariancesOnly(ledger: Ledger, branch: Id, lines: seq<Line>, kind: EntryKind, i: Id,
      b: Id)
    requires kind != CountVariance
    ensures ledger <= AfterCounts(ledger, branch, lines)
    ensures Sum(AfterCounts(ledger, branch, lines), OfKind(kind, i, b)) == Sum(ledger, OfKind(kind, i, b))
    ensures Sum(AfterCounts(ledger, branch, lines), Transferred(i)) == Sum(ledger, Transferred(i))
  {
    hide Sum;
    if |lines| > 0 {
      var front, l := lines[..|lines| - 1], lines[|lines| - 1];
      CountsPostVariancesOnly(ledger, branch, front, kind, i, b);
      var mid := AfterCounts(ledger, branch, front);
      var e := Entry(l.productId, branch, l.quantity - Stock(mid, l.productId, branch), CountVariance);
      SumSnoc(mid, e, OfKind(kind, i, b));
      SumSnoc(mid, e, Transferred(i));
    }
  }

  /** Transfers move stock between branches without creating or losing any. */
  lemma {:induction false} TransfersConserve(ledger: Ledger, source: Id, destination: Id, lines: seq<Line>,
      kind: EntryKind, i: Id, b: Id)
    requires kind != TransferOut && kind != TransferIn
    ensures ledger <= AfterTransfers(ledger, source, destination, lines)
    ensures Sum(AfterTransfers(ledger, source, destination, lines), Transferred(i)) == Sum(ledger, Transferred(i))
    ensures Sum(AfterTransfers(ledger, source, destination, lines), OfKind(kind, i, b)) == Sum(ledger, OfKind(kind, i, b))
  {
    hide Sum;
    if |lines| > 0 {
      var front, l := lines[..|lines| - 1], lines[|lines| - 1];
      TransfersConserve(ledger, source, destination, front, kind, i, b);
      var mid := AfterTransfers(ledger, source, destination, front);
      var out := Entry(l.productId, source, -l.quantity, TransferOut);
      var into := Entry(l.productId, destination, l.quantity, TransferIn);
      assert mid + [out, into] == mid + [out] + [into];
      SumSnoc(mid, out, Transferred(i));
      SumSnoc(mid + [out], into, Transferred(i));
      SumSnoc(mid, out, OfKind(kind, i, b));
      SumSnoc(mid + [out], into, OfKind(kind, i, b));
    }
  }

  // ---- which way stock moves ----

  /** Posting lines adds their quantities, with the sign, to the stock of the branch and of no other. */
  lemma {:induction false} PostedStock(ledger: Ledger, lines: seq<Line>, branch: Id, kind: EntryKind, sign: int, i: Id,
                                       b: Id)
    requires sign == 1 || sign == -1
    ensures Stock(ledger + Map(lines, Post(branch, kind, sign)), i, b)
         == Stock(ledger, i, b) + if b == branch then sign * Sum(lines, Ordered(i)) else 0
  {
    var posted := Map(lines, Post(branch, kind, sign));
    if |lines| == 0 {
      assert ledger + posted == ledger;
    } else {
      var n := |lines| - 1;
      PostedStock(ledger, lines[..n], branch, kind, sign, i, b);
      var front := ledger + Map(lines[..n], Post(branch, kind, sign));
      assert ledger + posted == front + [posted[n]];
      SumSnoc(front, posted[n], At(i, b));
    }
  }

  /** Transferred quantities leave the source and arrive at the destination; no other branch notices. */
  lemma {:induction false} TransfersMoveStock(ledger: Ledger, source: Id, destination: Id, lines: seq<Line>, i: Id, b: Id)
    ensures Stock(AfterTransfers(ledger, source, destination, lines), i, b)
         == Stock(ledger, i, b) - (if b == source then Sum(lines, Ordered(i)) else 0)
            + (if b == destination then Sum(lines, Ordered(i)) else 0)
  {
    if |lines| > 0 {
      var front, l := lines[..|lines| - 1], lines[|lines| - 1];
      TransfersMoveStock(ledger, source, destination, front, i, b);
      var mid := AfterTransfers(ledger, source, destination, front);
      TransferMovesStock(mid, l.productId, source, destination, l.quantity, i, b);
    }
  }

  lemma {:induction false} TransferMovesStock(ledger: Ledger, item: Id, source: Id, destination: Id, quantity: int, i: Id,
                                              b: Id)
    ensures Stock(AfterTransfer(ledger, item, source, destination, quantity), i, b)
         == Stock(ledger, i, b) - (if b == source && i == item then quantity else 0)
            + (if b == destination && i == item then quantity else 0)
  {
    var out, into := Entry(item, source, -quantity, TransferOut), Entry(item, destination, quantity, TransferIn);
    assert ledger + [out, into] == ledger + [out] + [into];
    SumSnoc(ledger, out, At(i, b));
    SumSnoc(ledger + [out], into, At(i, b));
  }

  class InventoryLedgerService {
    var entries: Ledger

    constructor (entries: Ledger)
      ensures this.entries == entries
    {
      this.entries := entries;
    }

    method PostEntry(item: Id, branch: Id, quantity: int, kind: EntryKind)
      modifies this
      ensures entries == old(entries) + [Entry(item, branch, quantity, kind)]
    {
      entries := entries + [Entry(item, branch, quantity, kind)];
    }

    method StockOnHand(item: Id, branch: Id) returns (stock: int)
      ensures stock == Stock(entries, item, branch)
    {
      stock := 0;
      for i := 0 to |entries|
        invariant stock == Stock(entries[..i], item, branch)
      {
        SumPrefix(entries, i, At(item, branch));
        if entries[i].item == item && entries[i].branch == branch {
          stock := stock + entries[i].quantity;
        }
      }
      assert entries[..|entries|] == entries;
    }

    method TransferStock(item: Id, source: Id, destination: Id, quantity: int)
      modifies this
      ensures entries == AfterTransfer(old(entries), item, source, destination, quantity)
      ensures source != destination ==>
        && Stock(entries, item, source) == Stock(old(entries), item, source) - quantity
        && Stock(entries, item, destination) == Stock(old(entries), item, destination) + quantity
    {
      TransferMovesStock(entries, item, source, destination, quantity, item, source);
      TransferMovesStock(entries, item, source, destination, quantity, item, destination);
      PostEntry(item, source, -quantity, TransferOut);
      PostEntry(item, destination, quantity, TransferIn);
    }

    method ApplyStockCount(item: Id, branch: Id, counted: int) returns (line: CountLine)
      modifies this
      ensures entries == AfterCount(old(entries), item, branch, counted)
      ensures line == CountResult(old(entries), branch, Line(item, counted))
      ensures line.closing == Stock(entries, item, branch)
    {
      var expected := StockOnHand(item, branch);
      var variance := counted - expected;
      CountSetsStock(entries, item, branch, counted, item, branch);
      if variance != 0 {
        PostEntry(item, branch, variance, CountVariance);
      }
      var closing := StockOnHand(item, branch);
      line := CountLine(item, expected, counted, variance, closing);
    }
  }
}
