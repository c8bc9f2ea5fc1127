/** GST split, purchase totals and finance arithmetic (compliance.py, purchasing.py, finance.py). */
module Taxes {
  import opened Folds
  import opened Money

  datatype Tax = Tax(cgst: int, sgst: int, igst: int, total: int)

  datatype CostLine = CostLine(quantity: int, unitCost: int, taxRate: int)

  datatype Totals = Totals(subtotal: int, tax: Tax, grandTotal: int)

  /** First two characters of a GSTIN that is already stripped and upper-cased. */
  function StateCode(gstin: Option<string>): Option<string>
  {
    if gstin.Some? && |gstin.value| >= 2 then Some(gstin.value[..2]) else None
  }

  predicate SameState(seller: Option<string>, buyer: Option<string>)
  {
    StateCode(seller).Some? && StateCode(seller) == StateCode(buyer)
  }

  function InvoiceTaxes(seller: Option<string>, buyer: Option<string>, taxable: int, rate: int): Tax
  {
    var total := TaxOn(taxable, rate);
    if SameState(seller, buyer) then
      var half := RoundDiv(total, 2);
      Tax(half, half, 0, total)
    else Tax(0, 0, total, total)
  }

  /** The halves of one split are at most one hundredth away from the tax they split. */
  lemma SplitDrift(seller: Option<string>, buyer: Option<string>, taxable: int, rate: int)
    ensures var t := InvoiceTaxes(seller, buyer, taxable, rate);
            t.total == TaxOn(taxable, rate) && Abs(t.cgst + t.sgst + t.igst - t.total) <= 1
  {
    Nearest(TaxOn(taxable, rate), 2);
  }

  /** The two state codes are known and the same. */
  predicate Intrastate(seller: Option<string>, buyer: Option<string>)
  {
    && seller.Some? && buyer.Some? && |seller.value| >= 2 && |buyer.value| >= 2
    && seller.value[0] == buyer.value[0] && seller.value[1] == buyer.value[1]
  }

  /** Within a state the tax is split into two equal halves, each at most half a paisa off; otherwise it is all IGST. */
  lemma TaxIsSplit(seller: Option<string>, buyer: Option<string>, taxable: int, rate: int)
    ensures var t := InvoiceTaxes(seller, buyer, taxable, rate);
            && -10000 <= 20000 * t.total - 2 * taxable * rate <= 10000
            && (Intrastate(seller, buyer) ==> t.cgst == t.sgst && t.igst == 0 && Abs(2 * t.cgst - t.total) <= 1)
            && (!Intrastate(seller, buyer) ==> t.igst == t.total && t.cgst == 0 && t.sgst == 0)
  {
    Nearest(taxable * rate, 10000);
    Nearest(TaxOn(taxable, rate), 2);
    assert 2 * taxable * rate == 2 * (taxable * rate);
    if seller.Some? && buyer.Some? && |seller.value| >= 2 && |buyer.value| >= 2 {
      assert seller.value[..2][0] == seller.value[0] && seller.value[..2][1] == seller.value[1];
      assert buyer.value[..2][0] == buyer.value[0] && buyer.value[..2][1] == buyer.value[1];
      if Intrastate(seller, buyer) { assert seller.value[..2] == buyer.value[..2]; }
    }
  }

  function LineSubtotal(): CostLine -> int { (l: CostLine) => Amount(l.quantity, l.unitCost) }

  function LineTax(seller: Option<string>, buyer: Option<string>): CostLine -> Tax
  {
    (l: CostLine) => InvoiceTaxes(seller, buyer, LineSubtotal()(l), l.taxRate)
  }

  function LineCgst(seller: Option<string>, buyer: Option<string>): CostLine -> int
  {
    (l: CostLine) => LineTax(seller, buyer)(l).cgst
  }
  function LineSgst(seller: Option<string>, buyer: Option<string>): CostLine -> int
  {
    (l: CostLine) => LineTax(seller, buyer)(l).sgst
  }
  function LineIgst(seller: Option<string>, buyer: Option<string>): CostLine -> int
  {
    (l: CostLine) => LineTax(seller, buyer)(l).igst
  }
  function LineTaxTotal(): CostLine -> int { (l: CostLine) => TaxOn(LineSubtotal()(l), l.taxRate) }

  /** What an invoice or a supplier credit note over `lines` must total: every line rounded and taxed on its own. */
  function PurchaseTotals(seller: Option<string>, buyer: Option<string>, lines: seq<CostLine>): Totals
  {
    var subtotal := Sum(lines, LineSubtotal());
    var taxTotal := Sum(lines, LineTaxTotal());
    Totals(subtotal,
           Tax(Sum(lines, LineCgst(seller, buyer)), Sum(lines, LineSgst(seller, buyer)),
               Sum(lines, LineIgst(seller, buyer)), taxTotal), subtotal + taxTotal)
  }

  method ComputePurchaseTotals(seller: Option<string>, buyer: Option<string>, lines: seq<CostLine>) returns (r: Totals)
    ensures r == PurchaseTotals(seller, buyer, lines)
    ensures r.grandTotal == r.subtotal + r.tax.total
  {
    var subtotal, cgst, sgst, igst, taxTotal := 0, 0, 0, 0, 0;
    for i := 0 to |lines|
      invariant subtotal == Sum(lines[..i], LineSubtotal()) && taxTotal == Sum(lines[..i], LineTaxTotal())
      invariant cgst == Sum(lines[..i], LineCgst(seller, buyer))
      invariant sgst == Sum(lines[..i], LineSgst(seller, buyer))
      invariant igst == Sum(lines[..i], LineIgst(seller, buyer))
    {
      var lineSubtotal := Amount(lines[i].quantity, lines[i].unitCost);
      var tax := InvoiceTaxes(seller, buyer, lineSubtotal, lines[i].taxRate);
      assert tax == LineTax(seller, buyer)(lines[i]);
      SumPrefix(lines, i, LineSubtotal());
      SumPrefix(lines, i, LineTaxTotal());
      SumPrefix(lines, i, LineCgst(seller, buyer));
      SumPrefix(lines, i, LineSgst(seller, buyer));
      SumPrefix(lines, i, LineIgst(seller, buyer));
      subtotal := subtotal + lineSubtotal;
      cgst, sgst, igst := cgst + tax.cgst, sgst + tax.sgst, igst + tax.igst;
      taxTotal := taxTotal + tax.total;
    }
    assert lines[..|lines|] == lines;
    r := Totals(subtotal, Tax(cgst, sgst, igst, taxTotal), subtotal + taxTotal);
  }

  /** One more line adds its rounded amount, and the tax on that amount with its parts, to the totals. */
  lemma {:induction false} LineAdds(seller: Option<string>, buyer: Option<string>, lines: seq<CostLine>, l: CostLine)
    ensures var before, after := PurchaseTotals(seller, buyer, lines), PurchaseTotals(seller, buyer, lines + [l]);
            var net := Amount(l.quantity, l.unitCost);
            var tax := InvoiceTaxes(seller, buyer, net, l.taxRate);
            && after.subtotal == before.subtotal + net && after.tax.total == before.tax.total + tax.total
            && after.tax.cgst == before.tax.cgst + tax.cgst && after.tax.sgst == before.tax.sgst + tax.sgst
            && after.tax.igst == before.tax.igst + tax.igst && after.grandTotal == before.grandTotal + net + tax.total
  {
    var net := Amount(l.quantity, l.unitCost);
    var tax := InvoiceTaxes(seller, buyer, net, l.taxRate);
    assert LineSubtotal()(l) == net;
    assert LineTax(seller, buyer)(l) == tax;
    assert LineTax(seller, buyer)(l).total == LineTaxTotal()(l);
    SumSnoc(lines, l, LineSubtotal());
    SumSnoc(lines, l, LineTaxTotal());
    SumSnoc(lines, l, LineCgst(seller, buyer));
    SumSnoc(lines, l, LineSgst(seller, buyer));
    SumSnoc(lines, l, LineIgst(seller, buyer));
  }

  /** Over n lines the GST components drift from the tax total by at most n hundredths. */
  lemma {:induction false} GstComponentsDrift(seller: Option<string>, buyer: Option<string>, lines: seq<CostLine>)
    ensures var t := PurchaseTotals(seller, buyer, lines).tax;
            Abs(t.cgst + t.sgst + t.igst - t.total) <= |lines|
  {
    if |lines| > 0 {
      var l := lines[|lines| - 1];
      GstComponentsDrift(seller, buyer, lines[..|lines| - 1]);
      assert LineTax(seller, buyer)(l).total == LineTaxTotal()(l);
      SplitDrift(seller, buyer, LineSubtotal()(l), l.taxRate);
    }
  }

  // ---- returning an invoiced line in parts ----

  function Quantity(): int -> int { q => q }

  function Part(line: CostLine, quantity: int): CostLine { line.(quantity := quantity) }

  /** Credit note total for returning `quantity` units of an invoiced line. */
  function CreditNoteOf(line: CostLine): int -> int
  {
    q => Amount(q, line.unitCost) + TaxOn(Amount(q, line.unitCost), line.taxRate)
  }

  lemma CreditNoteIsSingleLineTotal(seller: Option<string>, buyer: Option<string>, line: CostLine, quantity: int)
    ensures PurchaseTotals(seller, buyer, [Part(line, quantity)]).grandTotal == CreditNoteOf(line)(quantity)
  {
    var l := Part(line, quantity);
    assert [l][..0] == [];
    assert Sum([l], LineSubtotal()) == LineSubtotal()(l) && Sum([l], LineTaxTotal()) == LineTaxTotal()(l);
  }

  function PartNet(line: CostLine): int -> int { q => Amount(q, line.unitCost) }
  function PartTax(line: CostLine): int -> int { q => TaxOn(Amount(q, line.unitCost), line.taxRate) }

  /** Twice the rounding error of a part, in hundredths of a hundredth for net amounts ... */
  function NetError(line: CostLine): int -> int { q => 200 * PartNet(line)(q) + -2 * line.unitCost * q }

  /** ... and in ten-thousandths of a hundredth for tax. */
  function TaxError(line: CostLine): int -> int { q => 20000 * PartTax(line)(q) + -2 * line.taxRate * PartNet(line)(q) }

  lemma ErrorsAreSmall(line: CostLine, q: int)
    ensures Abs(NetError(line)(q)) <= 100 && Abs(TaxError(line)(q)) <= 10000
  {
    Nearest(q * line.unitCost, 100);
    Nearest(Amount(q, line.unitCost) * line.taxRate, 10000);
    assert -2 * line.unitCost * q == -2 * (q * line.unitCost);
    assert -2 * line.taxRate * PartNet(line)(q) == -2 * (Amount(q, line.unitCost) * line.taxRate);
  }

  lemma {:induction false} SumBounded<T>(xs: seq<T>, f: T -> int, d: nat)
    requires forall i :: 0 <= i < |xs| ==> Abs(f(xs[i])) <= d
    ensures Abs(Sum(xs, f)) <= d * |xs|
  {
    if |xs| > 0 {
      SumBounded(xs[..|xs| - 1], f, d);
      assert d * |xs| == d * (|xs| - 1) + d;
    }
  }

  lemma {:induction false} SumLinear<T>(xs: seq<T>, f: T -> int, g: T -> int, h: T -> int, a: int, b: int)
    requires forall i :: 0 <= i < |xs| ==> h(xs[i]) == a * f(xs[i]) + b * g(xs[i])
    ensures Sum(xs, h) == a * Sum(xs, f) + b * Sum(xs, g)
  {
    if |xs| > 0 {
      var n := |xs| - 1;
      SumLinear(xs[..n], f, g, h, a, b);
      Distribute(a, Sum(xs[..n], f), f(xs[n]));
      Distribute(b, Sum(xs[..n], g), g(xs[n]));
    }
  }

  lemma Distribute(a: int, x: int, y: int)
    ensures a * (x + y) == a * x + a * y
  {
  }

  lemma {:induction false} PartsError(line: CostLine, parts: seq<int>)
    ensures Abs(Sum(parts, NetError(line))) <= 100 * |parts|
    ensures Abs(Sum(parts, TaxError(line))) <= 10000 * |parts|
  {
    forall i | 0 <= i < |parts|
      ensures Abs(NetError(line)(parts[i])) <= 100 && Abs(TaxError(line)(parts[i])) <= 10000
    {
      ErrorsAreSmall(line, parts[i]);
    }
    SumBounded(parts, NetError(line), 100);
    SumBounded(parts, TaxError(line), 10000);
  }

  lemma {:induction false} PartsSplit(line: CostLine, parts: seq<int>)
    ensures Sum(parts, NetError(line))
         == 200 * Sum(parts, PartNet(line)) + -2 * line.unitCost * Sum(parts, Quantity())
    ensures Sum(parts, TaxError(line))
         == 20000 * Sum(parts, PartTax(line)) + -2 * line.taxRate * Sum(parts, PartNet(line))
    ensures Sum(parts, CreditNoteOf(line)) == Sum(parts, PartNet(line)) + Sum(parts, PartTax(line))
  {
    hide Amount, TaxOn, Sum;
    SumLinear(parts, PartNet(line), Quantity(), NetError(line), 200, -2 * line.unitCost);
    SumLinear(parts, PartTax(line), PartNet(line), TaxError(line), 20000, -2 * line.taxRate);
    SumAdd(parts, PartNet(line), PartTax(line), CreditNoteOf(line));
  }

  /**
   * Returning an invoiced line in k parts that add up to its quantity credits the invoiced line total up to
   * (k + 1)(1 + r / 200) hundredths for a tax rate of r percent.
   */
  lemma {:induction false} PartialReturnsCreditTheLine(line: CostLine, parts: seq<int>)
    requires Sum(parts, Quantity()) == line.quantity
    ensures 20000 * Abs(Sum(parts, CreditNoteOf(line)) - CreditNoteOf(line)(line.quantity))
         <= (|parts| + 1) * (20000 + Abs(line.taxRate))
  {
    hide Amount, TaxOn, Sum, Abs;
    var q := line.quantity;
    PartsError(line, parts);
    PartsSplit(line, parts);
    ErrorsAreSmall(line, q);
    ErrorsCombine(Sum(parts, PartNet(line)), Sum(parts, PartTax(line)), PartNet(line)(q), PartTax(line)(q),
                  -2 * line.unitCost * q, line.taxRate, |parts|);
  }

  lemma ErrorsCombine(net: int, tax: int, net1: int, tax1: int, exact: int, r: int, k: nat)
    requires Abs(200 * net + exact) <= 100 * k && Abs(200 * net1 + exact) <= 100
    requires Abs(20000 * tax + -2 * r * net) <= 10000 * k && Abs(20000 * tax1 + -2 * r * net1) <= 10000
    ensures 20000 * Abs(net + tax - (net1 + tax1)) <= (k + 1) * (20000 + Abs(r))
  {
    NetGap(net, net1, exact, k);
    TaxGap(r, net, net1, k + 1);
    Distribute(k + 1, 20000, Abs(r));
    Spread(net, tax, net1, tax1, exact, -2 * r * net, -2 * r * net1, (k + 1) * Abs(r), k);
  }

  lemma NetGap(net: int, net1: int, exact: int, k: nat)
    requires Abs(200 * net + exact) <= 100 * k && Abs(200 * net1 + exact) <= 100
    ensures Abs(2 * (net - net1)) <= k + 1
  {
  }

  lemma TaxGap(r: int, net: int, net1: int, n: nat)
    requires Abs(2 * (net - net1)) <= n
    ensures Abs(-2 * r * net - -2 * r * net1) <= n * Abs(r)
  {
    ProductBound(-r, net - net1, n);
    assert -2 * r * net - -2 * r * net1 == 2 * (-r * (net - net1));
  }

  lemma Spread(net: int, tax: int, net1: int, tax1: int, exact: int, p: int, p1: int, m: int, k: nat)
    requires Abs(200 * net + exact) <= 100 * k && Abs(200 * net1 + exact) <= 100
    requires Abs(20000 * tax + p) <= 10000 * k && Abs(20000 * tax1 + p1) <= 10000 && Abs(p - p1) <= m
    ensures 20000 * Abs(net + tax - (net1 + tax1)) <= 20000 * (k + 1) + m
  {
  }

  lemma ProductBound(r: int, d: int, n: nat)
    requires Abs(2 * d) <= n
    ensures Abs(2 * (r * d)) <= Abs(r) * n
  {
    var m: int := n;
    assert 2 * (r * d) == r * (2 * d);
    if r >= 0 {
      assert r * (-m) <= r * (2 * d) <= r * m;
    } else {
      assert (-r) * (-m) <= (-r) * (2 * d) <= (-r) * m;
    }
  }

  /** The lowest tax rate, -100%, at which no line total can be negative. */
  const LOWEST_RATE := -10000

  /** A line total is non-negative for every positive quantity and cost exactly when the tax rate is at least -100%. */
  lemma LineTotalsNonNegative(rate: int)
    ensures (forall q: int, c: int :: q > 0 && c > 0 ==> CreditNoteOf(CostLine(q, c, rate))(q) >= 0)
       <==> rate >= LOWEST_RATE
  {
    if rate >= LOWEST_RATE {
      forall q: int, c: int | q > 0 && c > 0 ensures CreditNoteOf(CostLine(q, c, rate))(q) >= 0 {
        LineTotalNonNegative(CostLine(q, c, rate));
      }
    } else {
      assert Amount(100, 10000) == 10000;
      assert CreditNoteOf(CostLine(100, 10000, rate))(100) == 10000 + rate;
    }
  }

  lemma LineTotalNonNegative(line: CostLine)
    requires line.quantity > 0 && line.unitCost > 0 && line.taxRate >= LOWEST_RATE
    ensures CreditNoteOf(line)(line.quantity) >= 0
  {
    var net := Amount(line.quantity, line.unitCost);
    assert line.quantity * line.unitCost > 0;
    assert net >= 0;
    assert net * line.taxRate >= net * LOWEST_RATE;
  }

  lemma {:induction false} PurchaseTotalNonNegative(seller: Option<string>, buyer: Option<string>, lines: seq<CostLine>)
    requires forall l :: l in lines ==> l.quantity > 0 && l.unitCost > 0 && l.taxRate >= LOWEST_RATE
    ensures PurchaseTotals(seller, buyer, lines).grandTotal >= 0
  {
    if |lines| > 0 {
      PurchaseTotalNonNegative(seller, buyer, lines[..|lines| - 1]);
      LineTotalNonNegative(lines[|lines| - 1]);
    }
  }

  // ---- finance.py ----

  datatype Direction = Collect | Refund | Even

  function ExpectedClose(openingFloat: int, cashSales: int): int { openingFloat + cashSales }

  function ExchangeBalance(returnTotal: int, replacementTotal: int): (r: (Direction, nat))
    ensures replacementTotal - returnTotal == Signed(r.0, r.1)
    ensures r.0 == Even <==> r.1 == 0
  {
    var difference := replacementTotal - returnTotal;
    if difference > 0 then (Collect, difference)
    else if difference < 0 then (Refund, -difference)
    else (Even, 0)
  }

  /** What an exchange balance adds to the drawer. */
  function Signed(direction: Direction, amount: int): int
  {
    match direction case Collect => amount case Refund => -amount case Even => 0
  }

  function TaxInclusive(subtotal: int, rate: int): int { subtotal + TaxOn(subtotal, rate) }
}
