/** Trial balance, profit and loss and balance sheet, each computed from its own
    grouped query over the ledger (general-ledger.service.ts). */
module Reports {
  import opened Common
  import opened Sums
  import opened Rounding
  import opened Books
  import opened BooksInvariant
  import opened LedgerBalance

  datatype AccountType = Asset | Liability | Equity | Revenue | Expense | CostOfGoods

  type Chart = map<Id, AccountType>

  /** One row of SELECT ... SUM(debit), SUM(credit) ... GROUP BY account. */
  datatype GroupRow = GroupRow(account: Id, kind: AccountType, debit: int, credit: int)

  const ALL_KINDS: set<AccountType> := {Asset, Liability, Equity, Revenue, Expense, CostOfGoods}
  const INCOME_KINDS: set<AccountType> := {Revenue, Expense, CostOfGoods}
  const SHEET_KINDS: set<AccountType> := {Asset, Liability, Equity}

  function PostingNet(): Posting -> int { (g: Posting) => g.debit - g.credit }

  function AccountValue(v: Posting -> int, a: Id, p: nat): Posting -> int {
    (g: Posting) => if g.account == a && g.period == p then v(g) else 0
  }

  /** The ledger of period `p` restricted to some account types. */
  function KindValue(v: Posting -> int, chart: Chart, kinds: set<AccountType>, p: nat): Posting -> int {
    (g: Posting) => if g.period == p && g.account in chart && chart[g.account] in kinds then v(g) else 0
  }

  /** The foreign key from general_ledger to accounts. */
  ghost predicate Charted(gl: seq<Posting>, chart: Chart) {
    forall g | g in gl :: g.account in chart
  }

  /** `rows` is the result of the grouped query over the given account types, in any order. */
  ghost predicate Grouped(rows: seq<GroupRow>, gl: seq<Posting>, p: nat, kinds: set<AccountType>, chart: Chart) {
    && (forall i, j | 0 <= i < j < |rows| :: rows[i].account != rows[j].account)
    && (forall r | r in rows ::
          && r.account in chart && r.kind == chart[r.account] && r.kind in kinds
          && r.debit == Sum(AccountValue(PostingDebit(), r.account, p), gl)
          && r.credit == Sum(AccountValue(PostingCredit(), r.account, p), gl))
    && (forall g | g in gl && g.period == p && g.account in chart && chart[g.account] in kinds ::
          exists i :: 0 <= i < |rows| && rows[i].account == g.account)
  }

  function Cell(v: Posting -> int, kinds: set<AccountType>, p: nat): (GroupRow, Posting) -> int {
    (r: GroupRow, g: Posting) => if r.kind in kinds && g.account == r.account && g.period == p then v(g) else 0
  }

  /** Summing grouped rows of some types gives the plain ledger sum of those types. */
  lemma GroupedSum(rv: GroupRow -> int, v: Posting -> int, some: set<AccountType>,
                   rows: seq<GroupRow>, gl: seq<Posting>, p: nat, kinds: set<AccountType>, chart: Chart)
    requires Grouped(rows, gl, p, kinds, chart) && some <= kinds
    requires forall r | r in rows :: rv(r) == if r.kind in some then Sum(AccountValue(v, r.account, p), gl) else 0
    ensures Sum(rv, rows) == Sum(KindValue(v, chart, some, p), gl)
  {
    var h := Cell(v, some, p);
    forall r | r in rows ensures rv(r) == Inner(h, gl)(r) {
      if r.kind in some {
        SumEqual(AccountValue(v, r.account, p), Fix(h, r), gl);
      } else {
        SumZero(Fix(h, r), gl);
      }
    }
    SumEqual(rv, Inner(h, gl), rows);
    SumExchange(h, rows, gl);
    forall g | g in gl ensures Inner(Flip(h), rows)(g) == KindValue(v, chart, some, p)(g) {
      if g.period == p && g.account in chart && chart[g.account] in some {
        var i :| 0 <= i < |rows| && rows[i].account == g.account;
        assert rows[i] in rows;
        SumSingle(Fix(Flip(h), g), rows, i);
      } else {
        SumZero(Fix(Flip(h), g), rows);
      }
    }
    SumEqual(Inner(Flip(h), rows), KindValue(v, chart, some, p), gl);
  }

  function KindNet(gl: seq<Posting>, chart: Chart, kind: AccountType, p: nat): int {
    Sum(KindValue(PostingNet(), chart, {kind}, p), gl)
  }

  // ------------------------------------------------------------------
  // Trial balance
  // ------------------------------------------------------------------

  function RowDebit(): GroupRow -> int { (r: GroupRow) => r.debit }

  function RowCredit(): GroupRow -> int { (r: GroupRow) => r.credit }

  method TrialBalance(rows: seq<GroupRow>, ghost gl: seq<Posting>, ghost p: nat, ghost chart: Chart)
    returns (totalDebit: int, totalCredit: int, isBalanced: bool)
    requires Grouped(rows, gl, p, ALL_KINDS, chart) && Charted(gl, chart)
    ensures totalDebit == Sum(DebitIn(p), gl) && totalCredit == Sum(CreditIn(p), gl)
    ensures isBalanced <==> -100 < Sum(DebitIn(p), gl) - Sum(CreditIn(p), gl) < 100
  {
    totalDebit, totalCredit := Sum(RowDebit(), rows), Sum(RowCredit(), rows);
    isBalanced := Abs(totalDebit - totalCredit) < TOLERANCE;
    GroupedSum(RowDebit(), PostingDebit(), ALL_KINDS, rows, gl, p, ALL_KINDS, chart);
    GroupedSum(RowCredit(), PostingCredit(), ALL_KINDS, rows, gl, p, ALL_KINDS, chart);
    forall k: AccountType ensures k in ALL_KINDS {
      assert k.Asset? || k.Liability? || k.Equity? || k.Revenue? || k.Expense? || k.CostOfGoods?;
    }
    SumEqual(KindValue(PostingDebit(), chart, ALL_KINDS, p), DebitIn(p), gl);
    SumEqual(KindValue(PostingCredit(), chart, ALL_KINDS, p), CreditIn(p), gl);
  }

  // ------------------------------------------------------------------
  // Profit and loss, balance sheet
  // ------------------------------------------------------------------

  function DebitSide(): GroupRow -> int { (r: GroupRow) => r.debit - r.credit }

  function CreditSide(): GroupRow -> int { (r: GroupRow) => r.credit - r.debit }

  function DebitSideOf(kind: AccountType): GroupRow -> int {
    (r: GroupRow) => if r.kind == kind then r.debit - r.credit else 0
  }

  lemma {:induction false} SidesOpposite(rows: seq<GroupRow>)
    ensures Sum(CreditSide(), rows) == 0 - Sum(DebitSide(), rows)
  {
    if rows != [] {
      SidesOpposite(rows[..|rows| - 1]);
    }
  }

  lemma SideOfKind(kind: AccountType, rows: seq<GroupRow>, gl: seq<Posting>, p: nat, kinds: set<AccountType>,
                   chart: Chart)
    requires Grouped(rows, gl, p, kinds, chart) && kind in kinds
    ensures Sum(DebitSideOf(kind), rows) == KindNet(gl, chart, kind, p)
  {
    forall r | r in rows
      ensures DebitSideOf(kind)(r) == if r.kind in {kind} then Sum(AccountValue(PostingNet(), r.account, p), gl) else 0
    {
      if r.kind == kind {
        SumPlus(AccountValue(PostingNet(), r.account, p), AccountValue(PostingCredit(), r.account, p),
                AccountValue(PostingDebit(), r.account, p), gl);
      }
    }
    GroupedSum(DebitSideOf(kind), PostingNet(), {kind}, rows, gl, p, kinds, chart);
  }

  /** The classification loop of both statements: rows of one type, of another, and the rest. */
  method Classify(rows: seq<GroupRow>, first: AccountType, second: AccountType, third: AccountType)
    returns (a: seq<GroupRow>, b: seq<GroupRow>, c: seq<GroupRow>)
    requires first != second && first != third && second != third
    requires forall r | r in rows :: r.kind == first || r.kind == second || r.kind == third
    ensures Sum(DebitSide(), a) == Sum(DebitSideOf(first), rows)
    ensures Sum(DebitSide(), b) == Sum(DebitSideOf(second), rows)
    ensures Sum(DebitSide(), c) == Sum(DebitSideOf(third), rows)
  {
    a, b, c := [], [], [];
    for i := 0 to |rows|
      invariant Sum(DebitSide(), a) == Sum(DebitSideOf(first), rows[..i])
      invariant Sum(DebitSide(), b) == Sum(DebitSideOf(second), rows[..i])
      invariant Sum(DebitSide(), c) == Sum(DebitSideOf(third), rows[..i])
    {
      var row := rows[i];
      assert row in rows && rows[..i + 1] == rows[..i] + [row];
      SumAppend(DebitSideOf(first), rows[..i], row);
      SumAppend(DebitSideOf(second), rows[..i], row);
      SumAppend(DebitSideOf(third), rows[..i], row);
      if row.kind == first {
        SumAppend(DebitSide(), a, row);
        a := a + [row];
      } else if row.kind == second {
        SumAppend(DebitSide(), b, row);
        b := b + [row];
      } else {
        SumAppend(DebitSide(), c, row);
        c := c + [row];
      }
    }
    assert rows[..|rows|] == rows;
  }

  method ProfitLoss(rows: seq<GroupRow>, ghost gl: seq<Posting>, ghost p: nat, ghost chart: Chart)
    returns (totalRevenue: int, totalCogs: int, totalExpense: int, netIncome: int)
    requires Grouped(rows, gl, p, INCOME_KINDS, chart)
    ensures totalRevenue == 0 - KindNet(gl, chart, Revenue, p)
    ensures totalCogs == KindNet(gl, chart, CostOfGoods, p)
    ensures totalExpense == KindNet(gl, chart, Expense, p)
    ensures netIncome == NetIncome(gl, chart, p)
  {
    var revenues, cogs, expenses := Classify(rows, Revenue, CostOfGoods, Expense);
    SidesOpposite(revenues);
    SideOfKind(Revenue, rows, gl, p, INCOME_KINDS, chart);
    SideOfKind(CostOfGoods, rows, gl, p, INCOME_KINDS, chart);
    SideOfKind(Expense, rows, gl, p, INCOME_KINDS, chart);
    totalRevenue := Sum(CreditSide(), revenues);
    totalCogs := Sum(DebitSide(), cogs);
    var grossProfit := totalRevenue - totalCogs;
    totalExpense := Sum(DebitSide(), expenses);
    netIncome := grossProfit - totalExpense;
  }

  method BalanceSheet(rows: seq<GroupRow>, ghost gl: seq<Posting>, ghost p: nat, ghost chart: Chart)
    returns (totalAssets: int, totalLiabilities: int, totalEquity: int, isBalanced: bool)
    requires Grouped(rows, gl, p, SHEET_KINDS, chart)
    ensures totalAssets == KindNet(gl, chart, Asset, p)
    ensures totalLiabilities == 0 - KindNet(gl, chart, Liability, p)
    ensures totalEquity == 0 - KindNet(gl, chart, Equity, p)
    ensures isBalanced <==> SheetFlag(gl, chart, p)
  {
    var assets, liabilities, equity := Classify(rows, Asset, Liability, Equity);
    SidesOpposite(liabilities);
    SidesOpposite(equity);
    SideOfKind(Asset, rows, gl, p, SHEET_KINDS, chart);
    SideOfKind(Liability, rows, gl, p, SHEET_KINDS, chart);
    SideOfKind(Equity, rows, gl, p, SHEET_KINDS, chart);
    totalAssets := Sum(DebitSide(), assets);
    totalLiabilities := Sum(CreditSide(), liabilities);
    totalEquity := Sum(CreditSide(), equity);
    isBalanced := Abs(totalAssets - (totalLiabilities + totalEquity)) < TOLERANCE;
  }

  // ------------------------------------------------------------------
  // The three reports together
  // ------------------------------------------------------------------

  function NetIncome(gl: seq<Posting>, chart: Chart, p: nat): int {
    0 - KindNet(gl, chart, Revenue, p) - KindNet(gl, chart, CostOfGoods, p) - KindNet(gl, chart, Expense, p)
  }

  lemma {:induction false} KindsPartition(gl: seq<Posting>, chart: Chart, p: nat)
    requires Charted(gl, chart)
    ensures KindNet(gl, chart, Asset, p) + KindNet(gl, chart, Liability, p) + KindNet(gl, chart, Equity, p)
            + KindNet(gl, chart, Revenue, p) + KindNet(gl, chart, CostOfGoods, p) + KindNet(gl, chart, Expense, p)
         == Sum(DebitIn(p), gl) - Sum(CreditIn(p), gl)
  {
    if gl != [] {
      KindsPartition(gl[..|gl| - 1], chart, p);
      var g := gl[|gl| - 1];
      assert g in gl;
      var k := chart[g.account];
      assert k.Asset? || k.Liability? || k.Equity? || k.Revenue? || k.Expense? || k.CostOfGoods?;
    }
  }

  /** For every ledger and period: assets - liabilities - equity - net income is
      the trial balance's debit less credit. */
  lemma ReportsIdentity(gl: seq<Posting>, chart: Chart, p: nat)
    requires Charted(gl, chart)
    ensures KindNet(gl, chart, Asset, p) - (0 - KindNet(gl, chart, Liability, p)) - (0 - KindNet(gl, chart, Equity, p))
            - NetIncome(gl, chart, p)
         == Sum(DebitIn(p), gl) - Sum(CreditIn(p), gl)
  {
    KindsPartition(gl, chart, p);
  }

  /** The flag of the balance sheet, from the ledger. */
  predicate SheetFlag(gl: seq<Posting>, chart: Chart, p: nat) {
    var liabilities, equity := 0 - KindNet(gl, chart, Liability, p), 0 - KindNet(gl, chart, Equity, p);
    Abs(KindNet(gl, chart, Asset, p) - (liabilities + equity)) < TOLERANCE
  }

  /** After any run the sheet's own flag holds exactly when the period's net income,
      together with what rounding left between its debits and credits, is below 0.01:
      the sheet leaves current earnings out of equity. */
  lemma BalanceSheetFlagIff(ops: seq<Op>, column: ReversalColumn, chart: Chart, p: nat)
    requires Charted(Run(EMPTY, ops, column).gl, chart)
    ensures var b := Run(EMPTY, ops, column);
            SheetFlag(b.gl, chart, p) <==> -100 < NetIncome(b.gl, chart, p) + Sum(SkewIn(p), b.journals) < 100
  {
    EmptyBooksInv();
    RunKeepsInv(EMPTY, ops, column);
    ReportsIdentity(Run(EMPTY, ops, column).gl, chart, p);
  }

  /** With at most four decimals in every request, net income alone decides. */
  lemma BalanceSheetFlagExact(ops: seq<Op>, column: ReversalColumn, chart: Chart, p: nat)
    requires Charted(Run(EMPTY, ops, column).gl, chart) && forall op | op in ops :: WholeOp(op)
    ensures var gl := Run(EMPTY, ops, column).gl;
            SheetFlag(gl, chart, p) <==> -100 < NetIncome(gl, chart, p) < 100
  {
    ReportsIdentity(Run(EMPTY, ops, column).gl, chart, p);
    FourDecimalsBalance(ops, column);
  }

  /** The books after one posted sale. */
  lemma OneSale(receivable: Id, revenue: Id, amount: int, number: JournalNumber, column: ReversalColumn)
    returns (ops: seq<Op>)
    requires amount > 0
    ensures Run(EMPTY, ops, column).gl == [Posting(receivable, 0, 0, amount, 0)] + [Posting(revenue, 0, 0, 0, amount)]
    ensures forall op | op in ops :: WholeOp(op)
  {
    var dto := JournalDto(0, 15 * DAY, None, RawTwoLines(receivable, amount as real, revenue, amount as real));
    ops := OpenOps() + [OpAutoPost(dto, number)];
    OpenedBooks(column);
    RunAppend(EMPTY, OpenOps(), OpAutoPost(dto, number), column);
    NearestWhole(amount);
    RawTwoLinesTotals(receivable, amount as real, revenue, amount as real);
    RawTwoLinesAccepted(receivable, amount as real, revenue, amount as real);
    CreateAndPostIff(OPENED, dto, number);
    CreateAndPostShape(OPENED, dto, number);
  }

  lemma OneSaleNets(receivable: Id, revenue: Id, amount: int, chart: Chart, kind: AccountType)
    requires receivable != revenue && chart == map[receivable := Asset, revenue := Revenue]
    ensures KindNet([Posting(receivable, 0, 0, amount, 0)] + [Posting(revenue, 0, 0, 0, amount)], chart, kind, 0)
         == if kind == Asset then amount else if kind == Revenue then 0 - amount else 0
  {
    var due, sold := Posting(receivable, 0, 0, amount, 0), Posting(revenue, 0, 0, 0, amount);
    SumOne(KindValue(PostingNet(), chart, {kind}, 0), [due], due);
    SumAppend(KindValue(PostingNet(), chart, {kind}, 0), [due], sold);
  }

  /** The flag is wrong within reach: one posted sale of at least 0.01 turns it off. */
  lemma OneSaleUnbalancesSheet(receivable: Id, revenue: Id, amount: int, number: JournalNumber, column: ReversalColumn)
    returns (ops: seq<Op>, chart: Chart)
    requires receivable != revenue && amount >= TOLERANCE
    ensures var gl := Run(EMPTY, ops, column).gl;
            && Charted(gl, chart) && Sum(DebitIn(0), gl) == Sum(CreditIn(0), gl)
            && NetIncome(gl, chart, 0) == amount && !SheetFlag(gl, chart, 0)
  {
    chart := map[receivable := Asset, revenue := Revenue];
    ops := OneSale(receivable, revenue, amount, number, column);
    forall kind ensures KindNet(Run(EMPTY, ops, column).gl, chart, kind, 0)
                     == if kind == Asset then amount else if kind == Revenue then 0 - amount else 0 {
      OneSaleNets(receivable, revenue, amount, chart, kind);
    }
    BalanceSheetFlagExact(ops, column, chart, 0);
    FourDecimalsBalance(ops, column);
  }
}
