/** Rounding in invoice and order totals, over exact reals. */
module InvoiceTotals {
  import opened Common
  import opened Sums
  import opened Rounding
  import Books

  /** round4 of calculateDeliveryInvoiceTotals. */
  function Round4(x: real): real { Amount(Nearest(x * 10000.0)) }

  /** An amount of so many ten-thousandths. */
  function Amount(units: int): real { units as real / 10000.0 }

  lemma RoundUnits(x: real, units: real)
    requires x * 10000.0 == units
    ensures Round4(x) == Amount(Nearest(units))
  {
  }

  /** A running total that is already rounded may be rounded term by term. */
  lemma RoundStep(k: int, x: real, units: real)
    requires x * 10000.0 == units
    ensures Round4(Amount(k) + x) == Amount(k + Nearest(units))
  {
    RoundUnits(Amount(k) + x, k as real + units);
    NearestShift(k, units);
  }

  datatype Line = Line(quantity: real, unitPrice: real, discountPct: Option<real>, taxPct: Option<real>)

  function Pct(p: Option<real>): real { if p.Some? then p.value else 0.0 }

  function Kept(l: Line): real { 1.0 - Pct(l.discountPct) / 100.0 }

  function TaxRate(l: Line): real { Pct(l.taxPct) / 100.0 }

  function Gross(l: Line): real { l.quantity * l.unitPrice }

  function AfterDiscount(l: Line): real { Round4(Gross(l)) * Kept(l) }

  function Discounted(l: Line): real { Round4(AfterDiscount(l)) }

  function GrossUnits(l: Line): int { Nearest(Gross(l) * 10000.0) }

  function NetBase(l: Line): real { GrossUnits(l) as real * Kept(l) }

  /** What one line contributes to the subtotal, in ten-thousandths. */
  function NetOf(l: Line): int { Nearest(NetBase(l)) }

  function TaxBase(l: Line): real { NetOf(l) as real * TaxRate(l) }

  /** What one line contributes to the tax, in ten-thousandths. */
  function TaxOf(l: Line): int { Nearest(TaxBase(l)) }

  function NetUnits(): Line -> int { (l: Line) => NetOf(l) }

  function TaxUnits(): Line -> int { (l: Line) => TaxOf(l) }

  /** The source's running loop is the sum of separately rounded lines, and the
      total is exactly subtotal plus tax. */
  method CalculateDeliveryInvoiceTotals(lines: seq<Line>) returns (subtotal: real, taxAmount: real, totalAmount: real)
    ensures subtotal == Amount(Sum(NetUnits(), lines))
    ensures taxAmount == Amount(Sum(TaxUnits(), lines))
    ensures totalAmount == subtotal + taxAmount
  {
    subtotal, taxAmount := 0.0, 0.0;
    for i := 0 to |lines|
      invariant subtotal == Amount(Sum(NetUnits(), lines[..i]))
      invariant taxAmount == Amount(Sum(TaxUnits(), lines[..i]))
    {
      var discounted := Discounted(lines[i]);
      var tax := discounted * TaxRate(lines[i]);
      DiscountedUnits(lines[i]);
      TaxScaled(lines[i]);
      RoundSum(Sum(NetUnits(), lines[..i]), NetOf(lines[i]));
      RoundStep(Sum(TaxUnits(), lines[..i]), tax, TaxBase(lines[i]));
      assert lines[..i + 1][..i] == lines[..i];
      subtotal := Round4(subtotal + discounted);
      taxAmount := Round4(taxAmount + tax);
    }
    assert lines[..|lines|] == lines;
    RoundSum(Sum(NetUnits(), lines), Sum(TaxUnits(), lines));
    totalAmount := Round4(subtotal + taxAmount);
  }

  lemma Scale(a: real, k: int, x: real, part: real, units: real)
    requires a == Amount(k) && part == a * x && units == k as real * x
    ensures part * 10000.0 == units
  {
    assert a * 10000.0 == k as real;
    assert part * 10000.0 == (a * 10000.0) * x;
  }

  lemma RoundSum(k: int, m: int)
    ensures Round4(Amount(k) + Amount(m)) == Amount(k) + Amount(m) == Amount(k + m)
  {
    RoundStep(k, Amount(m), m as real);
    NearestShift(m, 0.0);
  }

  lemma DiscountedUnits(l: Line)
    ensures Discounted(l) == Amount(NetOf(l))
  {
    Scale(Round4(Gross(l)), GrossUnits(l), Kept(l), AfterDiscount(l), NetBase(l));
    RoundUnits(AfterDiscount(l), NetBase(l));
  }

  lemma TaxScaled(l: Line)
    ensures Discounted(l) * TaxRate(l) * 10000.0 == TaxBase(l)
  {
    DiscountedUnits(l);
    Scale(Discounted(l), NetOf(l), TaxRate(l), Discounted(l) * TaxRate(l), TaxBase(l));
  }

  /** The delivery lines are read in no particular order; the totals do not depend on it. */
  lemma {:induction false} SumPermuted<T>(f: T -> int, s: seq<T>, t: seq<T>)
    requires multiset(s) == multiset(t)
    ensures Sum(f, s) == Sum(f, t)
    decreases |s|
  {
    if s == [] {
      assert |t| == |multiset(t)| == 0;
    } else {
      var m := |s| - 1;
      var x := s[m];
      assert s == s[..m] + [x];
      assert x in multiset(t);
      var i :| 0 <= i < |t| && t[i] == x;
      assert t == t[..i] + [x] + t[i + 1..];
      assert multiset(s) == multiset(s[..m]) + multiset{x};
      assert multiset(t) == multiset(t[..i] + t[i + 1..]) + multiset{x};
      assert multiset(s[..m]) == multiset(s) - multiset{x};
      assert multiset(t[..i] + t[i + 1..]) == multiset(t) - multiset{x};
      SumPermuted(f, s[..m], t[..i] + t[i + 1..]);
      SumConcat(f, t[..i], t[i + 1..]);
      SumAppend(f, t[..i], x);
      SumConcat(f, t[..i] + [x], t[i + 1..]);
    }
  }

  lemma TotalsIgnoreOrder(s: seq<Line>, t: seq<Line>)
    requires multiset(s) == multiset(t)
    ensures Sum(NetUnits(), s) == Sum(NetUnits(), t) && Sum(TaxUnits(), s) == Sum(TaxUnits(), t)
  {
    SumPermuted(NetUnits(), s, t);
    SumPermuted(TaxUnits(), s, t);
  }

  // ------------------------------------------------------------------
  // Distance from the unrounded totals
  // ------------------------------------------------------------------

  function Net(l: Line): real { Gross(l) * Kept(l) }

  function Tax(l: Line): real { Net(l) * TaxRate(l) }

  /** The unrounded amounts in plain percentages; an absent percentage is zero. */
  lemma ExactAmounts(quantity: real, price: real, discount: Option<real>, tax: Option<real>)
    ensures var l := Line(quantity, price, discount, tax);
            && Net(l) * 100.0 == (quantity * price) * (100.0 - if discount.Some? then discount.value else 0.0)
            && Tax(l) * 100.0 == Net(l) * if tax.Some? then tax.value else 0.0
  {
    var l := Line(quantity, price, discount, tax);
    Hundredths(Gross(l), 100.0 - Pct(discount), Kept(l), Net(l));
    Hundredths(Net(l), Pct(tax), TaxRate(l), Tax(l));
  }

  lemma Hundredths(x: real, pct: real, f: real, xf: real)
    requires f == pct / 100.0 && xf == x * f
    ensures xf * 100.0 == x * pct
  {
    assert xf * 100.0 == x * (f * 100.0);
  }

  /** One piece at 100.00 with 10 per cent off and 11 per cent tax: 90.00 and 9.90. */
  lemma OnePiece()
    ensures var l := Line(1.0, 100.0, Some(10.0), Some(11.0));
            Net(l) == 90.0 && Tax(l) == 9.9 && NetOf(l) == 900000 && TaxOf(l) == 99000
  {
    var l := Line(1.0, 100.0, Some(10.0), Some(11.0));
    assert Gross(l) == 100.0 && Kept(l) == 0.9 && TaxRate(l) == 0.11;
  }

  function ExactNet(): Line -> real { (l: Line) => Net(l) }

  function ExactTax(): Line -> real { (l: Line) => Tax(l) }

  predicate PercentagesOk(lines: seq<Line>) {
    forall l | l in lines :: 0.0 <= Pct(l.discountPct) <= 100.0 && 0.0 <= Pct(l.taxPct) <= 100.0
  }

  lemma Portion(x: real, f: real, xf: real)
    requires x >= 0.0 && 0.0 <= f <= 1.0 && xf == x * f
    ensures 0.0 <= xf <= x
  {
    assert x * (1.0 - f) >= 0.0;
  }

  /** Scaling by a factor of at most 1 does not widen an error. */
  lemma Shrink(x: real, y: real, f: real, xf: real, yf: real, bound: real)
    requires 0.0 <= f <= 1.0 && Distance(x, y) <= bound && xf == x * f && yf == y * f
    ensures Distance(xf, yf) <= bound
  {
    if x >= y {
      Portion(x - y, f, xf - yf);
    } else {
      Portion(y - x, f, yf - xf);
    }
  }

  lemma Shift(x: real, f: real, xf: real)
    requires xf == x * f
    ensures (x * 10000.0) * f == xf * 10000.0
  {
  }

  /** Two roundings reach the net amount. */
  lemma NetError(l: Line)
    requires 0.0 <= Pct(l.discountPct) <= 100.0
    ensures Distance(NetOf(l) as real, Net(l) * 10000.0) <= 1.0
  {
    NearestError(Gross(l) * 10000.0);
    Shift(Gross(l), Kept(l), Net(l));
    Shrink(GrossUnits(l) as real, Gross(l) * 10000.0, Kept(l), NetBase(l), Net(l) * 10000.0, 0.5);
    NearestError(NetBase(l));
  }

  /** Three reach the tax. */
  lemma TaxError(l: Line)
    requires 0.0 <= Pct(l.discountPct) <= 100.0 && 0.0 <= Pct(l.taxPct) <= 100.0
    ensures Distance(TaxOf(l) as real, Tax(l) * 10000.0) <= 1.5
  {
    NetError(l);
    Shift(Net(l), TaxRate(l), Tax(l));
    Shrink(NetOf(l) as real, Net(l) * 10000.0, TaxRate(l), TaxBase(l), Tax(l) * 10000.0, 1.0);
    NearestError(TaxBase(l));
  }

  /** n lines put the subtotal within n * 0.0001 and the tax within n * 0.00015 of
      the unrounded values. */
  lemma {:induction false} TotalsError(lines: seq<Line>)
    requires PercentagesOk(lines)
    ensures Distance(Amount(Sum(NetUnits(), lines)), RealSum(ExactNet(), lines)) <= |lines| as real * 0.0001
    ensures Distance(Amount(Sum(TaxUnits(), lines)), RealSum(ExactTax(), lines)) <= |lines| as real * 0.00015
  {
    if lines != [] {
      var m := |lines| - 1;
      TotalsError(lines[..m]);
      NetError(lines[m]);
      TaxError(lines[m]);
    }
  }

  lemma Product(x: real, y: real, xy: real)
    requires x >= 0.0 && y >= 0.0 && xy == x * y
    ensures xy >= 0.0
  {
  }

  predicate NonNegative(lines: seq<Line>) { forall l | l in lines :: l.quantity >= 0.0 && l.unitPrice >= 0.0 }

  lemma UnitsNonNegative(lines: seq<Line>)
    requires PercentagesOk(lines) && NonNegative(lines)
    ensures Sum(NetUnits(), lines) >= 0 && Sum(TaxUnits(), lines) >= 0
  {
    forall l | l in lines ensures NetOf(l) >= 0 && TaxOf(l) >= 0 {
      Product(l.quantity, l.unitPrice, Gross(l));
      Product(GrossUnits(l) as real, Kept(l), NetBase(l));
      Product(NetOf(l) as real, TaxRate(l), TaxBase(l));
    }
    SumNonNegative(NetUnits(), lines);
    SumNonNegative(TaxUnits(), lines);
  }

  // ------------------------------------------------------------------
  // The generated journal lines
  // ------------------------------------------------------------------

  /** Receivable against revenue, and output tax only when there is some. */
  function InvoiceLines(ar: Id, revenue: Id, tax: Id, net: int, taxAmount: int): seq<Books.Line> {
    [Books.Line(ar, net + taxAmount, 0), Books.Line(revenue, 0, net)]
      + if taxAmount > 0 then [Books.Line(tax, 0, taxAmount)] else []
  }

  /** The same as requested; these amounts have four decimals already. */
  function RawInvoiceLines(ar: Id, revenue: Id, tax: Id, net: nat, taxAmount: nat): seq<Books.RawLine> {
    [Books.RawLine(ar, (net + taxAmount) as real, 0.0), Books.RawLine(revenue, 0.0, net as real)]
      + if taxAmount > 0 then [Books.RawLine(tax, 0.0, taxAmount as real)] else []
  }

  lemma InvoiceLinesStored(ar: Id, revenue: Id, tax: Id, net: nat, taxAmount: nat)
    ensures Books.StoreAll(RawInvoiceLines(ar, revenue, tax, net, taxAmount))
              == InvoiceLines(ar, revenue, tax, net, taxAmount)
  {
    NearestWhole(net + taxAmount);
    NearestWhole(net);
    NearestWhole(taxAmount);
    NearestWhole(0);
  }

  lemma InvoiceLinesTotals(ar: Id, revenue: Id, tax: Id, net: nat, taxAmount: nat)
    ensures var raw := RawInvoiceLines(ar, revenue, tax, net, taxAmount);
            Books.RawTotalDebit(raw) == Books.RawTotalCredit(raw) == (net + taxAmount) as real
  {
    var due, sale, vat := Books.RawLine(ar, (net + taxAmount) as real, 0.0), Books.RawLine(revenue, 0.0, net as real),
                          Books.RawLine(tax, 0.0, taxAmount as real);
    assert [due, sale] == [due] + [sale] && [due, sale] + [] == [due, sale];
    RealSumOne(Books.RawDebit(), [due], due);
    RealSumOne(Books.RawCredit(), [due], due);
    RealSumAppend(Books.RawDebit(), [due], sale);
    RealSumAppend(Books.RawCredit(), [due], sale);
    RealSumAppend(Books.RawDebit(), [due, sale], vat);
    RealSumAppend(Books.RawCredit(), [due, sale], vat);
  }

  lemma InvoiceLinesBalanced(ar: Id, revenue: Id, tax: Id, net: nat, taxAmount: nat)
    ensures Books.Balanced(InvoiceLines(ar, revenue, tax, net, taxAmount))
  {
    var due, sale, vat := Books.Line(ar, net + taxAmount, 0), Books.Line(revenue, 0, net),
        Books.Line(tax, 0, taxAmount);
    assert [due, sale] == [due] + [sale] && [due, sale] + [] == [due, sale];
    SumOne(Books.DebitOf(), [due], due);
    SumOne(Books.CreditOf(), [due], due);
    SumAppend(Books.DebitOf(), [due], sale);
    SumAppend(Books.CreditOf(), [due], sale);
    SumAppend(Books.DebitOf(), [due, sale], vat);
    SumAppend(Books.CreditOf(), [due, sale], vat);
  }

  lemma InvoiceLinesPostable(ar: Id, revenue: Id, tax: Id, net: nat, taxAmount: nat)
    ensures Books.PostableLines(RawInvoiceLines(ar, revenue, tax, net, taxAmount)) <==> net > 0
  {
    InvoiceLinesStored(ar, revenue, tax, net, taxAmount);
    InvoiceLinesTotals(ar, revenue, tax, net, taxAmount);
    var stored := InvoiceLines(ar, revenue, tax, net, taxAmount);
    assert stored[1] in stored;
    assert forall l | l in stored :: l == stored[0] || l == stored[1] || (taxAmount > 0 && l == stored[2]);
  }

  /** The invoice journal balances with zero difference, stored and unrounded, and is
      accepted exactly when something is charged: goods given away cannot be invoiced. */
  lemma InvoiceJournalBalances(ar: Id, revenue: Id, tax: Id, lines: seq<Line>)
    requires PercentagesOk(lines) && NonNegative(lines)
    ensures Sum(NetUnits(), lines) >= 0 && Sum(TaxUnits(), lines) >= 0
    ensures var net, taxAmount := Sum(NetUnits(), lines), Sum(TaxUnits(), lines);
            var raw := RawInvoiceLines(ar, revenue, tax, net, taxAmount);
            && Books.RawTotalDebit(raw) == Books.RawTotalCredit(raw) == (net + taxAmount) as real
            && Books.StoreAll(raw) == InvoiceLines(ar, revenue, tax, net, taxAmount)
                && Books.Balanced(Books.StoreAll(raw))
            && (Books.PostableLines(raw) <==> net > 0)
  {
    UnitsNonNegative(lines);
    InvoiceLinesStored(ar, revenue, tax, Sum(NetUnits(), lines), Sum(TaxUnits(), lines));
    InvoiceLinesTotals(ar, revenue, tax, Sum(NetUnits(), lines), Sum(TaxUnits(), lines));
    InvoiceLinesBalanced(ar, revenue, tax, Sum(NetUnits(), lines), Sum(TaxUnits(), lines));
    InvoiceLinesPostable(ar, revenue, tax, Sum(NetUnits(), lines), Sum(TaxUnits(), lines));
  }

  // ------------------------------------------------------------------
  // Orders: sales-order and purchase-order services share these formulas
  // ------------------------------------------------------------------

  /** Two decimals, in cents. */
  function Cents(x: real): int { Nearest(x * 100.0) }

  function Discount(l: Line): real { Gross(l) * (Pct(l.discountPct) / 100.0) }

  function ExactDiscount(): Line -> real { (l: Line) => Discount(l) }

  function TaxedNet(l: Line): real { Net(l) * (1.0 + TaxRate(l)) }

  /** calcLineSubtotal: the stored subtotal of one line includes its tax. */
  function LineCents(): Line -> int { (l: Line) => Cents(TaxedNet(l)) }

  method CalculateOrderTotals(items: seq<Line>)
    returns (subtotal: int, discountAmount: int, taxAmount: int, totalAmount: int)
    ensures subtotal == Cents(RealSum(ExactNet(), items))
    ensures discountAmount == Cents(RealSum(ExactDiscount(), items))
    ensures taxAmount == Cents(RealSum(ExactTax(), items))
    ensures totalAmount == Cents(RealSum(ExactNet(), items) + RealSum(ExactTax(), items))
    ensures -1 <= totalAmount - (subtotal + taxAmount) <= 1
  {
    var net, discounts, taxes := 0.0, 0.0, 0.0;
    for i := 0 to |items|
      invariant net == RealSum(ExactNet(), items[..i])
      invariant discounts == RealSum(ExactDiscount(), items[..i])
      invariant taxes == RealSum(ExactTax(), items[..i])
    {
      var item := items[i];
      assert items[..i + 1][..i] == items[..i];
      var discount := Discount(item);
      var after := Gross(item) - discount;
      NetAfterDiscount(item);
      var tax := after * TaxRate(item);
      net, discounts, taxes := net + after, discounts + discount, taxes + tax;
    }
    assert items[..|items|] == items;
    subtotal, discountAmount, taxAmount, totalAmount := Cents(net), Cents(discounts), Cents(taxes), Cents(net + taxes);
    SplitRounding(net, taxes);
  }

  lemma NetAfterDiscount(l: Line)
    ensures Gross(l) - Discount(l) == Net(l)
  {
  }

  function Residue(x: real): real { x * 100.0 - Cents(x) as real }

  /** Rounding a sum and summing the rounded parts differ by at most a cent, and
      agree exactly when the two residues together stay within half a cent. */
  lemma SplitRounding(x: real, y: real)
    ensures -1 <= Cents(x + y) - (Cents(x) + Cents(y)) <= 1
    ensures Cents(x + y) == Cents(x) + Cents(y) <==> -0.5 <= Residue(x) + Residue(y) < 0.5
  {
    assert (x + y) * 100.0 == x * 100.0 + y * 100.0;
  }

  lemma LineCentsError(l: Line)
    ensures Distance(LineCents()(l) as real, (Net(l) + Tax(l)) * 100.0) <= 0.5
  {
    assert TaxedNet(l) == Net(l) + Tax(l);
    NearestError(TaxedNet(l) * 100.0);
  }

  lemma {:induction false} LinesCentsError(items: seq<Line>)
    ensures Distance(Sum(LineCents(), items) as real, (RealSum(ExactNet(), items) + RealSum(ExactTax(), items)) * 100.0)
            <= 0.5 * |items| as real
  {
    if items != [] {
      var m := |items| - 1;
      LinesCentsError(items[..m]);
      LineCentsError(items[m]);
    }
  }

  /** The header total of an order of n items is within 0.005 * (n + 1) of the sum
      of its stored line subtotals (stated in cents). */
  lemma HeaderVersusLines(items: seq<Line>)
    ensures Distance(Cents(RealSum(ExactNet(), items) + RealSum(ExactTax(), items)) as real,
              Sum(LineCents(), items) as real)
            <= 0.5 * (|items| + 1) as real
  {
    LinesCentsError(items);
    NearestError((RealSum(ExactNet(), items) + RealSum(ExactTax(), items)) * 100.0);
  }
}
