/** The services that confirm deliveries and create invoices, on the tables, with
    the stock they check and the journals they post. */
module BillingTables {
  import opened Common
  import opened Sums
  import opened Rounding
  import opened Billing
  import opened BillingInvariant
  import opened Entries
  import Books
  import BooksInvariant
  import InvoiceTotals
  import StockChecks
  import StockLedger
  import StockLock
  import StockWriters

  datatype Error = NoDeliveries | OrderUnavailable | NotDraft | DeliveryInvalid | AlreadyInvoiced
                 | InsufficientStock | DuplicateMovement | JournalRejected

  // ------------------------------------------------------------------
  // Amounts of an invoice
  // ------------------------------------------------------------------

  /** The price columns of an order item. */
  datatype Price = Price(unit: real, discountPct: Option<real>, taxPct: Option<real>)

  predicate PricesOk(prices: seq<Price>) {
    forall p | p in prices ::
      && p.unit >= 0.0
      && 0.0 <= InvoiceTotals.Pct(p.discountPct) <= 100.0
      && 0.0 <= InvoiceTotals.Pct(p.taxPct) <= 100.0
  }

  /** A delivery line with the price columns of its order item. */
  function Priced(prices: seq<Price>, l: Line): InvoiceTotals.Line
    requires l.item < |prices|
  {
    var p := prices[l.item];
    InvoiceTotals.Line(InvoiceTotals.Amount(l.quantity), p.unit, p.discountPct, p.taxPct)
  }

  /** The join of delivery lines with their order items. */
  function PricedLines(prices: seq<Price>, lines: seq<Line>): seq<InvoiceTotals.Line> {
    if lines == [] then [] else
      var l := lines[|lines| - 1];
      PricedLines(prices, lines[..|lines| - 1])
      + if l.item < |prices| then [Priced(prices, l)] else []
  }

  function BilledLines(s: Shop, prices: seq<Price>, ids: seq<nat>): seq<InvoiceTotals.Line> {
    if ids == [] then [] else
      var d := ids[|ids| - 1];
      BilledLines(s, prices, ids[..|ids| - 1])
      + if d < |s.deliveries| then PricedLines(prices, s.deliveries[d].lines) else []
  }

  /** Every line that has an order item is priced from that item, each value in its place. */
  lemma {:induction false} PricedLinesAt(prices: seq<Price>, lines: seq<Line>)
    requires forall l | l in lines :: l.item < |prices|
    ensures |PricedLines(prices, lines)| == |lines|
    ensures forall i | 0 <= i < |lines| ::
              PricedLines(prices, lines)[i]
              == InvoiceTotals.Line(lines[i].quantity as real / 10000.0, prices[lines[i].item].unit,
                                    prices[lines[i].item].discountPct, prices[lines[i].item].taxPct)
  {
    if lines != [] {
      var m := |lines| - 1;
      assert lines[m] in lines;
      PricedLinesAt(prices, lines[..m]);
    }
  }

  predicate LinesOk(lines: seq<InvoiceTotals.Line>) {
    InvoiceTotals.PercentagesOk(lines) && InvoiceTotals.NonNegative(lines)
  }

  lemma {:induction false} PricedLinesOk(prices: seq<Price>, lines: seq<Line>)
    requires PricesOk(prices) && forall l | l in lines :: l.quantity > 0
    ensures LinesOk(PricedLines(prices, lines))
  {
    if lines != [] {
      var m := |lines| - 1;
      PricedLinesOk(prices, lines[..m]);
      assert lines[m] in lines;
      if lines[m].item < |prices| {
        assert prices[lines[m].item] in prices;
      }
    }
  }

  lemma {:induction false} BilledLinesOk(s: Shop, prices: seq<Price>, ids: seq<nat>)
    requires RowsOk(s) && PricesOk(prices)
    ensures LinesOk(BilledLines(s, prices, ids))
  {
    if ids != [] {
      var m := |ids| - 1;
      BilledLinesOk(s, prices, ids[..m]);
      if ids[m] < |s.deliveries| {
        assert DeliveryRowOk(s, s.deliveries[ids[m]]);
        PricedLinesOk(prices, s.deliveries[ids[m]].lines);
      }
    }
  }

  function NetAmount(lines: seq<InvoiceTotals.Line>): int { Sum(InvoiceTotals.NetUnits(), lines) }

  function TaxAmount(lines: seq<InvoiceTotals.Line>): int { Sum(InvoiceTotals.TaxUnits(), lines) }

  // ------------------------------------------------------------------
  // The same from the price columns and the delivered quantities
  // ------------------------------------------------------------------

  function Percent(p: Option<real>): real {
    match p case Some(pct) => pct case None => 0.0
  }

  /** The price of a quantity, rounded. */
  function Worth(quantity: int, unit: real): int { Nearest(quantity as real * unit) }

  /** So many per cent of an amount, rounded. */
  function Share(amount: int, pct: real): int { Nearest(amount as real * (pct / 100.0)) }

  /** The net charge is the worth of the quantity less the discount; the tax is a
      share of the net charge. Quantities and results are in units of 10^-4. */
  function NetDue(prices: seq<Price>): Line -> int {
    (l: Line) =>
      if l.item < |prices|
      then Share(Worth(l.quantity, prices[l.item].unit), 100.0 - Percent(prices[l.item].discountPct))
      else 0
  }

  function TaxDue(prices: seq<Price>): Line -> int {
    (l: Line) =>
      if l.item < |prices| then Share(NetDue(prices)(l), Percent(prices[l.item].taxPct)) else 0
  }

  /** What the lines of a delivery are charged. */
  function DeliveryDue(s: Shop, due: Line -> int): nat -> int {
    (d: nat) => if d < |s.deliveries| then Sum(due, s.deliveries[d].lines) else 0
  }

  lemma GrossDue(prices: seq<Price>, l: Line)
    requires l.item < |prices|
    ensures InvoiceTotals.GrossUnits(Priced(prices, l)) == Worth(l.quantity, prices[l.item].unit)
  {
    var unit := prices[l.item].unit;
    assert InvoiceTotals.Gross(Priced(prices, l)) * 10000.0 == l.quantity as real * unit by {
      assert (l.quantity as real / 10000.0) * unit * 10000.0 == l.quantity as real * unit;
    }
  }

  lemma Complement(x: real, pct: real)
    ensures x * (1.0 - pct / 100.0) == x * ((100.0 - pct) / 100.0)
  {
  }

  lemma NetOfLine(x: InvoiceTotals.Line, gross: int, pct: real)
    requires InvoiceTotals.GrossUnits(x) == gross && InvoiceTotals.Pct(x.discountPct) == pct
    ensures InvoiceTotals.NetOf(x) == Share(gross, 100.0 - pct)
  {
    Complement(gross as real, pct);
  }

  lemma TaxOfLine(x: InvoiceTotals.Line, net: int, pct: real)
    requires InvoiceTotals.NetOf(x) == net && InvoiceTotals.Pct(x.taxPct) == pct
    ensures InvoiceTotals.TaxOf(x) == Share(net, pct)
  {
  }

  lemma LineDue(prices: seq<Price>, l: Line)
    requires l.item < |prices|
    ensures InvoiceTotals.NetOf(Priced(prices, l)) == NetDue(prices)(l)
    ensures InvoiceTotals.TaxOf(Priced(prices, l)) == TaxDue(prices)(l)
  {
    var p := prices[l.item];
    GrossDue(prices, l);
    NetOfLine(Priced(prices, l), Worth(l.quantity, p.unit), Percent(p.discountPct));
    TaxOfLine(Priced(prices, l), NetDue(prices)(l), Percent(p.taxPct));
  }

  lemma PricedNext(prices: seq<Price>, lines: seq<Line>, f: InvoiceTotals.Line -> int, due: Line -> int)
    requires lines != []
    requires forall l: Line :: due(l) == if l.item < |prices| then f(Priced(prices, l)) else 0
    ensures Sum(f, PricedLines(prices, lines))
         == Sum(f, PricedLines(prices, lines[..|lines| - 1])) + due(lines[|lines| - 1])
  {
    var m := |lines| - 1;
    if lines[m].item < |prices| {
      SumAppend(f, PricedLines(prices, lines[..m]), Priced(prices, lines[m]));
    } else {
      assert PricedLines(prices, lines) == PricedLines(prices, lines[..m]);
    }
  }

  lemma {:induction false} PricedDue(prices: seq<Price>, lines: seq<Line>)
    ensures NetAmount(PricedLines(prices, lines)) == Sum(NetDue(prices), lines)
    ensures TaxAmount(PricedLines(prices, lines)) == Sum(TaxDue(prices), lines)
  {
    if lines != [] {
      var m := |lines| - 1;
      PricedDue(prices, lines[..m]);
      forall l: Line | l.item < |prices|
        ensures InvoiceTotals.NetUnits()(Priced(prices, l)) == NetDue(prices)(l)
        ensures InvoiceTotals.TaxUnits()(Priced(prices, l)) == TaxDue(prices)(l)
      {
        LineDue(prices, l);
      }
      PricedNext(prices, lines, InvoiceTotals.NetUnits(), NetDue(prices));
      PricedNext(prices, lines, InvoiceTotals.TaxUnits(), TaxDue(prices));
    }
  }

  lemma BilledNext(s: Shop, prices: seq<Price>, ids: seq<nat>, f: InvoiceTotals.Line -> int, due: Line -> int)
    requires ids != []
    requires forall lines :: Sum(f, PricedLines(prices, lines)) == Sum(due, lines)
    ensures Sum(f, BilledLines(s, prices, ids))
         == Sum(f, BilledLines(s, prices, ids[..|ids| - 1])) + DeliveryDue(s, due)(ids[|ids| - 1])
  {
    var m := |ids| - 1;
    if ids[m] < |s.deliveries| {
      SumConcat(f, BilledLines(s, prices, ids[..m]), PricedLines(prices, s.deliveries[ids[m]].lines));
    } else {
      assert BilledLines(s, prices, ids) == BilledLines(s, prices, ids[..m]);
    }
  }

  /** The billed totals are what the invoiced deliveries are charged, line by line. */
  lemma {:induction false} BilledDue(s: Shop, prices: seq<Price>, ids: seq<nat>)
    ensures NetAmount(BilledLines(s, prices, ids)) == Sum(DeliveryDue(s, NetDue(prices)), ids)
    ensures TaxAmount(BilledLines(s, prices, ids)) == Sum(DeliveryDue(s, TaxDue(prices)), ids)
  {
    if ids != [] {
      var m := |ids| - 1;
      BilledDue(s, prices, ids[..m]);
      forall lines
        ensures Sum(InvoiceTotals.NetUnits(), PricedLines(prices, lines)) == Sum(NetDue(prices), lines)
        ensures Sum(InvoiceTotals.TaxUnits(), PricedLines(prices, lines)) == Sum(TaxDue(prices), lines)
      {
        PricedDue(prices, lines);
      }
      BilledNext(s, prices, ids, InvoiceTotals.NetUnits(), NetDue(prices));
      BilledNext(s, prices, ids, InvoiceTotals.TaxUnits(), TaxDue(prices));
    }
  }

  function InvoiceReference(id: nat): Option<Books.Reference> { Some(Books.Reference("customer_invoice", id)) }

  datatype Ledgers = Ledgers(receivable: Id, revenue: Id, tax: Id, cogs: Id, inventory: Id)

  function InvoiceEntry(c: Ledgers, id: nat, lines: seq<InvoiceTotals.Line>, period: nat, at: int): Books.JournalDto
    requires LinesOk(lines)
  {
    InvoiceTotals.UnitsNonNegative(lines);
    Books.JournalDto(period, at, InvoiceReference(id),
                     InvoiceTotals.RawInvoiceLines(c.receivable, c.revenue, c.tax, NetAmount(lines), TaxAmount(lines)))
  }

  lemma InvoiceLinesMove(c: Ledgers, net: nat, taxAmount: nat, account: Id)
    ensures Sum(LineNet(account), InvoiceTotals.InvoiceLines(c.receivable, c.revenue, c.tax, net, taxAmount))
         == (if account == c.receivable then net + taxAmount else 0) - (if account == c.revenue then net else 0)
            - (if account == c.tax then taxAmount else 0)
  {
    var due, sale := Books.Line(c.receivable, net + taxAmount, 0), Books.Line(c.revenue, 0, net);
    var vat := Books.Line(c.tax, 0, taxAmount);
    assert [due, sale] == [due] + [sale] && [due, sale] + [] == [due, sale];
    SumOne(LineNet(account), [due], due);
    SumAppend(LineNet(account), [due], sale);
    SumAppend(LineNet(account), [due, sale], vat);
  }

  /** What the journal of an invoice does to every account: receivables take the net
      charges and the tax, revenue the net charges, output tax the tax. */
  lemma {:induction false} InvoiceMoves(books: Books.Books, c: Ledgers, id: nat, s: Shop, prices: seq<Price>,
                                        ids: seq<nat>, period: nat, at: int, number: Books.JournalNumber,
                                        books': Books.Books, account: Id)
    requires LinesOk(BilledLines(s, prices, ids))
    requires Books.CreateAndPost(books, InvoiceEntry(c, id, BilledLines(s, prices, ids), period, at), number)
          == Ok(books')
    ensures AccountNet(books', account) == AccountNet(books, account) + InvoiceMoved(c, s, prices, ids, account)
  {
    var lines := BilledLines(s, prices, ids);
    BilledDue(s, prices, ids);
    InvoiceTotals.UnitsNonNegative(lines);
    CreateAndPostMoves(books, InvoiceEntry(c, id, lines, period, at), number, account);
    InvoiceTotals.InvoiceLinesStored(c.receivable, c.revenue, c.tax, NetAmount(lines), TaxAmount(lines));
    InvoiceLinesMove(c, NetAmount(lines), TaxAmount(lines), account);
  }

  /** What an invoice of these deliveries moves on an account. */
  function InvoiceMoved(c: Ledgers, s: Shop, prices: seq<Price>, ids: seq<nat>, account: Id): int {
    var net, taxes := Sum(DeliveryDue(s, NetDue(prices)), ids), Sum(DeliveryDue(s, TaxDue(prices)), ids);
    (if account == c.receivable then net + taxes else 0) - (if account == c.revenue then net else 0)
    - (if account == c.tax then taxes else 0)
  }

  lemma {:induction false} InvoiceMove(books: Books.Books, c: Ledgers, id: nat, s: Shop, prices: seq<Price>,
                                       ids: seq<nat>, period: nat, at: int, number: Books.JournalNumber,
                                       books': Books.Books)
    requires LinesOk(BilledLines(s, prices, ids))
    requires Books.CreateAndPost(books, InvoiceEntry(c, id, BilledLines(s, prices, ids), period, at), number)
          == Ok(books')
    ensures forall a: Id :: AccountNet(books', a) == AccountNet(books, a) + InvoiceMoved(c, s, prices, ids, a)
  {
    forall a: Id ensures AccountNet(books', a) == AccountNet(books, a) + InvoiceMoved(c, s, prices, ids, a) {
      InvoiceMoves(books, c, id, s, prices, ids, period, at, number, books', a);
    }
  }

  /** The invoice's journal: accepted exactly when something is charged, the active
      period that is found takes the moment, and the invoice has no journal yet. */
  method PostInvoice(books: Books.Books, c: Ledgers, id: nat, lines: seq<InvoiceTotals.Line>, at: int,
                     found: Option<nat>, number: Books.JournalNumber)
    returns (r: Option<Books.Books>)
    requires LinesOk(lines) && Found(books, at, found)
    ensures r.Some? <==>
            NetAmount(lines) > 0 && PostsIn(books, at, found) && Books.ReferenceFree(books, InvoiceReference(id))
    ensures r.Some? ==> Books.CreateAndPost(books, InvoiceEntry(c, id, lines, found.value, at), number) == Ok(r.value)
  {
    InvoiceTotals.InvoiceJournalBalances(c.receivable, c.revenue, c.tax, lines);
    if NetAmount(lines) <= 0 {
      return None;
    }
    var journal := InvoiceTotals.RawInvoiceLines(c.receivable, c.revenue, c.tax, NetAmount(lines), TaxAmount(lines));
    r := PostInside(books, at, found, InvoiceReference(id), journal, number);
  }

  // ------------------------------------------------------------------
  // Stock and cost of a delivery
  // ------------------------------------------------------------------

  /** Where one line's goods come from, and their unit cost scaled by 10^4. */
  datatype Pick = Pick(key: StockLedger.StockKey, cost: int)

  function OutLines(lines: seq<Line>, picks: seq<Pick>): (r: seq<StockWriters.OutLine>)
    requires |picks| == |lines| && forall l | l in lines :: l.quantity > 0
    ensures |r| == |lines|
    ensures forall i | 0 <= i < |lines| :: r[i].key == picks[i].key && r[i].quantity == lines[i].quantity
  {
    seq(|lines|, i requires 0 <= i < |lines| =>
          assert lines[i] in lines; StockWriters.OutLine(picks[i].key, lines[i].quantity))
  }

  /** calculateCogs, in units of 10^-8. */
  function Cogs(lines: seq<Line>, picks: seq<Pick>): int
    requires |picks| == |lines|
  {
    if lines == [] then 0
    else Cogs(lines[..|lines| - 1], picks[..|lines| - 1]) + lines[|lines| - 1].quantity * picks[|lines| - 1].cost
  }

  /** Quantity times unit cost of the i-th line. */
  function CostAt(lines: seq<Line>, picks: seq<Pick>): nat -> int {
    (i: nat) => if i < |lines| && i < |picks| then lines[i].quantity * picks[i].cost else 0
  }

  lemma {:induction false} CogsIsSum(lines: seq<Line>, picks: seq<Pick>)
    requires |picks| == |lines|
    ensures Cogs(lines, picks) == Sum(CostAt(lines, picks), Ids(|lines|))
    decreases lines
  {
    if lines != [] {
      var m := |lines| - 1;
      CogsIsSum(lines[..m], picks[..m]);
      assert Ids(|lines|)[..m] == Ids(m);
      SumEqual(CostAt(lines, picks), CostAt(lines[..m], picks[..m]), Ids(m));
    }
  }

  /** What the cost journal moves: the total cost at four decimals, if there is any. */
  function CostMoved(lines: seq<Line>, picks: seq<Pick>): int {
    var cost := Sum(CostAt(lines, picks), Ids(|lines|));
    if cost <= 0 then 0 else Nearest(cost as real / 10000.0)
  }

  /** In units of 10^-4, not yet rounded. */
  function CogsAmount(cogs: nat): RawAmount { cogs as real / 10000.0 }

  function DeliverySource(d: nat): StockLedger.Source { StockLedger.Source("delivery_order", d + 1) }

  function DeliveryReference(d: nat): Option<Books.Reference> { Some(Books.Reference("delivery_order", d)) }

  /** Every key holds what the movement's items take from it. */
  ghost predicate Suffices(ledger: seq<StockLedger.Movement>, m: StockLedger.Movement) {
    forall k: StockLedger.StockKey | StockChecks.Leaving(m.items, k) > 0 ::
      StockLedger.OnHand(ledger, k) >= StockChecks.Leaving(m.items, k)
  }

  lemma RequirementsSuffice(ledger: seq<StockLedger.Movement>, m: StockLedger.Movement, reqs: seq<StockWriters.Demand>)
    requires StockWriters.Aggregates(reqs, StockWriters.Demands(m.items))
    ensures StockWriters.Passes(ledger, reqs) <==> Suffices(ledger, m)
  {
    var p := StockWriters.Plan(StockLock.LockOrder(StockWriters.KeysOf(reqs)), reqs, [m]);
    StockChecks.OutboundPassesIff(ledger, p, m);
  }

  method CheckStock(ledger: seq<StockLedger.Movement>, m: StockLedger.Movement) returns (ok: bool)
    ensures ok <==> Suffices(ledger, m)
  {
    var reqs := StockWriters.AggregateDemand(StockWriters.Demands(m.items));
    RequirementsSuffice(ledger, m, reqs);
    ok := CheckEach(ledger, reqs);
  }

  method CheckEach(ledger: seq<StockLedger.Movement>, reqs: seq<StockWriters.Demand>) returns (ok: bool)
    ensures ok <==> StockWriters.Passes(ledger, reqs)
  {
    for i := 0 to |reqs|
      invariant forall j | 0 <= j < i :: StockLedger.OnHand(ledger, reqs[j].key) as real >= reqs[j].quantity
    {
      if (StockLedger.OnHand(ledger, reqs[i].key) as real) < reqs[i].quantity {
        assert reqs[i] in reqs;
        return false;
      }
    }
    ok := true;
  }

  /** No journal for goods without cost; otherwise one that the books may refuse. A
      cost that rounds to zero is refused as well. */
  predicate CogsPosts(books: Books.Books, d: nat, cogs: int, at: int, found: Option<nat>) {
    cogs <= 0
    || (Nearest(CogsAmount(cogs)) > 0 && PostsIn(books, at, found) && Books.ReferenceFree(books, DeliveryReference(d)))
  }

  predicate CogsPosted(books: Books.Books, c: Ledgers, d: nat, cogs: int, period: nat, at: int,
                       number: Books.JournalNumber, books': Books.Books)
  {
    if cogs <= 0 then books' == books
    else
      var entry := TwoLegs(c.cogs, c.inventory, CogsAmount(cogs), period, at, DeliveryReference(d));
      Books.CreateAndPost(books, entry, number) == Ok(books')
  }

  /** What the cost journal does to every account: cost of goods takes the cost of what
      was delivered, inventory gives it. */
  lemma {:induction false} CogsMoves(books: Books.Books, c: Ledgers, d: nat, lines: seq<Line>, picks: seq<Pick>,
                                     period: nat, at: int, number: Books.JournalNumber, books': Books.Books,
                                     account: Id)
    requires |picks| == |lines| && CogsPosted(books, c, d, Cogs(lines, picks), period, at, number, books')
    ensures AccountNet(books', account)
         == AccountNet(books, account) + (if account == c.cogs then CostMoved(lines, picks) else 0)
            - (if account == c.inventory then CostMoved(lines, picks) else 0)
  {
    CogsIsSum(lines, picks);
    var cogs := Cogs(lines, picks);
    if cogs > 0 {
      TwoLegsMove(books, c.cogs, c.inventory, CogsAmount(cogs), period, at, DeliveryReference(d), number, account);
    }
  }

  method PostCogs(books: Books.Books, c: Ledgers, d: nat, cogs: int, at: int, found: Option<nat>,
                  number: Books.JournalNumber)
    returns (r: Option<Books.Books>)
    requires Found(books, at, found)
    ensures r.Some? <==> CogsPosts(books, d, cogs, at, found)
    ensures r.Some? && cogs > 0 ==> CogsPosted(books, c, d, cogs, found.value, at, number, r.value)
    ensures r.Some? && cogs <= 0 ==> r.value == books
  {
    if cogs <= 0 {
      return Some(books);
    }
    TwoLegsPostable(c.cogs, c.inventory, CogsAmount(cogs));
    if Nearest(CogsAmount(cogs)) <= 0 {
      return None;
    }
    var lines := BooksInvariant.RawTwoLines(c.cogs, CogsAmount(cogs), c.inventory, CogsAmount(cogs));
    r := PostInside(books, at, found, DeliveryReference(d), lines, number);
  }

  lemma {:induction false} CogsMove(books: Books.Books, c: Ledgers, d: nat, lines: seq<Line>, picks: seq<Pick>,
                                    at: int, found: Option<nat>, number: Books.JournalNumber, books': Books.Books)
    requires |picks| == |lines| && CogsPosts(books, d, Cogs(lines, picks), at, found)
    requires Cogs(lines, picks) > 0 ==> CogsPosted(books, c, d, Cogs(lines, picks), found.value, at, number, books')
    requires Cogs(lines, picks) <= 0 ==> books' == books
    ensures forall a: Id :: AccountNet(books', a) == AccountNet(books, a)
              + (if a == c.cogs then CostMoved(lines, picks) else 0)
              - (if a == c.inventory then CostMoved(lines, picks) else 0)
  {
    var period := if Cogs(lines, picks) > 0 then found.value else 0;
    forall a: Id
      ensures AccountNet(books', a) == AccountNet(books, a) + (if a == c.cogs then CostMoved(lines, picks) else 0)
                                       - (if a == c.inventory then CostMoved(lines, picks) else 0)
    {
      CogsMoves(books, c, d, lines, picks, period, at, number, books', a);
    }
  }

  /** Ascending and without duplicates. */
  predicate Ascending(ids: seq<nat>) { forall i, j | 0 <= i < j < |ids| :: ids[i] < ids[j] }

  function MembersBelow(ids: seq<nat>, n: nat): (r: seq<nat>)
    ensures Ascending(r) && (forall x :: x in r <==> x in ids && x < n) && forall i | 0 <= i < |r| :: r[i] < n
  {
    if n == 0 then [] else MembersBelow(ids, n - 1) + if n - 1 in ids then [n - 1] else []
  }

  function Above(ids: seq<nat>): (n: nat)
    ensures forall x | x in ids :: x < n
  {
    if ids == [] then 0 else
      var n, last := Above(ids[..|ids| - 1]), ids[|ids| - 1];
      assert ids == ids[..|ids| - 1] + [last];
      if last < n then n else last + 1
  }

  /** `[...new Set(ids)].sort((a, b) => a - b)` */
  function UniqueSorted(ids: seq<nat>): (r: seq<nat>)
    ensures Ascending(r) && Distinct(r) && (forall x :: x in r <==> x in ids)
  {
    MembersBelow(ids, Above(ids))
  }

  class Tables {
    var orders: seq<OrderStatus>
    var items: seq<Item>
    var deliveries: seq<Delivery>
    var invoices: nat
    var links: seq<Link>

    function View(): Shop
      reads this
    {
      Shop(orders, items, deliveries, invoices, links)
    }

    constructor ()
      ensures View() == START.shop
    {
      orders, items, deliveries, invoices, links := [], [], [], 0, [];
    }

    /** Recounts every item of the order, then derives the order's status. */
    method UpdateDeliveredQuantity(order: nat)
      requires order < |orders|
      modifies this`items, this`orders
      ensures Recounted(old(View()), order, items)
      ensures orders == old(orders)[order := if AllDelivered(View(), order) then Delivered
                                             else if AnyDelivered(View(), order) then Partial
                                             else old(orders)[order]]
    {
      ghost var s := View();
      for i := 0 to |items|
        invariant |items| == |s.items| && orders == s.orders
        invariant forall k | i <= k < |items| :: items[k] == s.items[k]
        invariant forall k | 0 <= k < i ::
          items[k] == if s.items[k].order == order
                      then s.items[k].(delivered := DeliveredQuantity(s, order, k))
                      else s.items[k]
      {
        if items[i].order == order {
          DeliveredSame(View(), s, order, i);
          items := items[i := items[i].(delivered := DeliveredQuantity(View(), order, i))];
        }
      }
      if AllDelivered(View(), order) {
        orders := orders[order := Delivered];
      } else if AnyDelivered(View(), order) {
        orders := orders[order := Partial];
      }
    }

    /** DeliveryOrderService.confirm: the guards, the stock check, the movement, the
        recount and the cost journal. `ledger` is the committed stock ledger as the
        transaction reads it under its locks. */
    method ConfirmDelivery(d: nat, picks: seq<Pick>, ledger: seq<StockLedger.Movement>, books: Books.Books, c: Ledgers,
                           at: int, found: Option<nat>, number: Books.JournalNumber)
      returns (r: Result<nat, Error>, ledger': seq<StockLedger.Movement>, books': Books.Books)
      requires RowsOk(View()) && StockWriters.DistinctSources(ledger) && Found(books, at, found)
      requires d < |deliveries| ==> |picks| == |deliveries[d].lines|
      modifies this
      ensures r.Ok? <==> && d < |old(deliveries)| && old(deliveries)[d].status == DraftDelivery
                         && Deliverable(old(orders)[old(deliveries)[d].order])
                         && Ships(old(deliveries)[d].lines, picks, d, ledger)
                         && CogsPosts(books, d, Sum(CostAt(old(deliveries)[d].lines, picks),
                                                    Ids(|old(deliveries)[d].lines|)), at, found)
      ensures r.Ok? ==> r.value == d && DeliveryConfirmed(old(View()), d, View())
      ensures r.Ok? ==> Ships(old(deliveries)[d].lines, picks, d, ledger)
                        && ledger'
                           == ledger + [StockWriters.DeliveryMovement(d + 1, OutLines(old(deliveries)[d].lines, picks))]
                        && StockWriters.DistinctSources(ledger')
      ensures r.Ok? ==> var cogs := Sum(CostAt(old(deliveries)[d].lines, picks), Ids(|old(deliveries)[d].lines|));
                        if cogs <= 0 then books' == books
                        else CogsPosted(books, c, d, cogs, found.value, at, number, books')
      ensures r.Ok? ==> var moved := CostMoved(old(deliveries)[d].lines, picks);
                        forall a: Id :: AccountNet(books', a) == AccountNet(books, a)
                          + (if a == c.cogs then moved else 0) - (if a == c.inventory then moved else 0)
      ensures r.Err? ==> View() == old(View()) && ledger' == ledger && books' == books
    {
      ledger', books' := ledger, books;
      if d >= |deliveries| || deliveries[d].status != DraftDelivery {
        return Err(NotDraft), ledger', books';
      }
      var order := deliveries[d].order;
      if !Deliverable(orders[order]) {
        return Err(OrderUnavailable), ledger', books';
      }
      assert DeliveryRowOk(View(), deliveries[d]);
      var lines := deliveries[d].lines;
      var m, objection := Ship(lines, picks, d, ledger);
      if objection.Some? {
        return Err(objection.value), ledger', books';
      }
      CogsIsSum(lines, picks);
      var posted := PostCogs(books, c, d, Cogs(lines, picks), at, found, number);
      if posted.None? {
        return Err(JournalRejected), ledger', books';
      }
      CogsMove(books, c, d, lines, picks, at, found, number, posted.value);
      Confirm(d);
      r, ledger', books' := Ok(d), ledger + [m], posted.value;
    }

    method Confirm(d: nat)
      requires d < |deliveries| && deliveries[d].order < |orders|
      modifies this
      ensures DeliveryConfirmed(old(View()), d, View())
    {
      var order := deliveries[d].order;
      deliveries := deliveries[d := deliveries[d].(status := ConfirmedDelivery)];
      UpdateDeliveredQuantity(order);
      assert AllDelivered(View(), order)
        <==> forall i | 0 <= i < |items| && items[i].order == order :: items[i].delivered >= items[i].quantity;
    }

    /** createInvoice: all of the requested deliveries, or nothing. */
    method CreateInvoice(order: nat, doIds: seq<nat>, prices: seq<Price>, books: Books.Books, c: Ledgers,
                         at: int, found: Option<nat>, number: Books.JournalNumber)
      returns (r: Result<nat, Error>, books': Books.Books)
      requires RowsOk(View()) && PricesOk(prices) && Found(books, at, found)
      modifies this
      ensures r.Ok? <==> && doIds != [] && order < |old(orders)| && Invoiceable(old(orders)[order])
                         && (forall d | d in doIds ::
                               IsConfirmedOf(old(View()), order, d) && !OnInvoice(old(View()), d))
                         && Sum(DeliveryDue(old(View()), NetDue(prices)), UniqueSorted(doIds)) > 0
                         && PostsIn(books, at, found) && Books.ReferenceFree(books, InvoiceReference(old(invoices)))
      ensures r.Ok? ==> r.value == old(invoices) && CanInvoice(old(View()), order, UniqueSorted(doIds))
                        && View() == AfterInvoice(old(View()), order, UniqueSorted(doIds))
      ensures r.Ok? ==> var lines := BilledLines(old(View()), prices, UniqueSorted(doIds));
                        LinesOk(lines)
                        && Books.CreateAndPost(books, InvoiceEntry(c, r.value, lines, found.value, at), number)
                           == Ok(books')
      ensures r.Ok? ==> forall a: Id ::
                          AccountNet(books', a)
                          == AccountNet(books, a) + InvoiceMoved(c, old(View()), prices, UniqueSorted(doIds), a)
      ensures r.Err? ==> View() == old(View()) && books' == books
    {
      books' := books;
      if doIds == [] {
        return Err(NoDeliveries), books';
      }
      if order >= |orders| || !Invoiceable(orders[order]) {
        return Err(OrderUnavailable), books';
      }
      var ids := UniqueSorted(doIds);
      assert doIds[0] in ids;
      if exists d | d in ids :: !IsConfirmedOf(View(), order, d) {
        return Err(DeliveryInvalid), books';
      }
      if exists d | d in ids :: OnInvoice(View(), d) {
        return Err(AlreadyInvoiced), books';
      }
      BilledLinesOk(View(), prices, ids);
      BilledDue(View(), prices, ids);
      var posted := PostInvoice(books, c, invoices, BilledLines(View(), prices, ids), at, found, number);
      if posted.None? {
        return Err(JournalRejected), books';
      }
      InvoiceMove(books, c, invoices, View(), prices, ids, found.value, at, number, posted.value);
      r, books' := Ok(invoices), posted.value;
      LinkInvoice(order, ids);
    }

    method LinkInvoice(order: nat, ids: seq<nat>)
      requires order < |orders|
      modifies this
      ensures View() == AfterInvoice(old(View()), order, ids)
    {
      links := links + LinkRows(invoices, order, ids);
      invoices := invoices + 1;
      var fully := FullyInvoiced(View(), order);
      orders := orders[order := if fully then Invoiced else Partial];
    }
  }

  /** The stock side lets a delivery out: enough on hand, and no movement for it yet. */
  ghost predicate Ships(lines: seq<Line>, picks: seq<Pick>, d: nat, ledger: seq<StockLedger.Movement>) {
    && |picks| == |lines| && (forall l | l in lines :: l.quantity > 0)
    && Suffices(ledger, StockWriters.DeliveryMovement(d + 1, OutLines(lines, picks)))
    && !StockWriters.Carries(ledger, DeliverySource(d))
  }

  /** What the lines take from a key. */
  function TakenAt(lines: seq<Line>, picks: seq<Pick>, k: StockLedger.StockKey): nat -> int {
    (i: nat) => if i < |lines| && i < |picks| && picks[i].key == k then lines[i].quantity else 0
  }

  lemma {:induction false} OutLinesLeave(lines: seq<Line>, picks: seq<Pick>, k: StockLedger.StockKey)
    requires |picks| == |lines| && forall l | l in lines :: l.quantity > 0
    ensures StockChecks.Leaving(StockWriters.OutItems(OutLines(lines, picks)), k)
         == Sum(TakenAt(lines, picks, k), Ids(|lines|))
    decreases lines
  {
    if lines != [] {
      var m := |lines| - 1;
      OutLinesLeave(lines[..m], picks[..m], k);
      assert Ids(|lines|)[..m] == Ids(m);
      SumEqual(TakenAt(lines, picks, k), TakenAt(lines[..m], picks[..m], k), Ids(m));
      var items := StockWriters.OutItems(OutLines(lines, picks));
      assert items[..m] == StockWriters.OutItems(OutLines(lines[..m], picks[..m]));
    }
  }

  /** A delivery is let out exactly when every key holds what all its lines together
      take from it, and it has not moved stock before. */
  lemma ShipsIff(lines: seq<Line>, picks: seq<Pick>, d: nat, ledger: seq<StockLedger.Movement>)
    requires |picks| == |lines| && (forall l | l in lines :: l.quantity > 0) && StockLedger.NonNegative(ledger)
    ensures Ships(lines, picks, d, ledger) <==>
            && (forall k: StockLedger.StockKey ::
                  StockLedger.OnHand(ledger, k) >= Sum(TakenAt(lines, picks, k), Ids(|lines|)))
            && !StockWriters.Carries(ledger, DeliverySource(d))
  {
    forall k: StockLedger.StockKey
      ensures StockChecks.Leaving(StockWriters.OutItems(OutLines(lines, picks)), k)
           == Sum(TakenAt(lines, picks, k), Ids(|lines|))
    {
      OutLinesLeave(lines, picks, k);
    }
    var m := StockWriters.DeliveryMovement(d + 1, OutLines(lines, picks));
    if Suffices(ledger, m) {
      forall k: StockLedger.StockKey
        ensures StockLedger.OnHand(ledger, k) >= Sum(TakenAt(lines, picks, k), Ids(|lines|))
      {
        assert StockLedger.OnHand(ledger, k) >= 0;
      }
    }
  }

  method Ship(lines: seq<Line>, picks: seq<Pick>, d: nat, ledger: seq<StockLedger.Movement>)
    returns (m: StockLedger.Movement, e: Option<Error>)
    requires |picks| == |lines| && (forall l | l in lines :: l.quantity > 0) && StockWriters.DistinctSources(ledger)
    ensures e.None? <==> Ships(lines, picks, d, ledger)
    ensures m == StockWriters.DeliveryMovement(d + 1, OutLines(lines, picks))
    ensures e.None? ==> StockWriters.DistinctSources(ledger + [m])
  {
    m := StockWriters.DeliveryMovement(d + 1, OutLines(lines, picks));
    var enough := CheckStock(ledger, m);
    if !enough {
      return m, Some(InsufficientStock);
    }
    StockWriters.MovementCommitsIff(ledger, m);
    if StockWriters.Carries(ledger, DeliverySource(d)) {
      return m, Some(DuplicateMovement);
    }
    e := None;
  }
}
