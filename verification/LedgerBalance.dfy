/** Whether all debits of the ledger equal all credits. The balance constraint
    compares the totals stored with a journal, while the ledger carries its lines,
    each rounded on its own. */
module LedgerBalance {
  import opened Common
  import opened Sums
  import opened Rounding
  import opened Books
  import opened BooksInvariant
  import Reversals

  function PostingDebit(): Posting -> int { (r: Posting) => r.debit }

  function PostingCredit(): Posting -> int { (r: Posting) => r.credit }

  /** Every posted journal's skew. */
  function PostedSkew(): Journal -> int { (j: Journal) => if j.status != Draft then Skew(j) else 0 }

  function DebitBelow(n: nat): Posting -> int { (r: Posting) => if r.period < n then r.debit else 0 }

  function CreditBelow(n: nat): Posting -> int { (r: Posting) => if r.period < n then r.credit else 0 }

  function SkewBelow(n: nat): Journal -> int {
    (j: Journal) => if j.status != Draft && j.period < n then Skew(j) else 0
  }

  lemma {:induction false} SkewedBelow(b: Books, n: nat)
    requires GlOk(b)
    ensures Sum(DebitBelow(n), b.gl) - Sum(CreditBelow(n), b.gl) == Sum(SkewBelow(n), b.journals)
  {
    if n == 0 {
      SumEqual(DebitBelow(0), CreditBelow(0), b.gl);
      SumZero(SkewBelow(0), b.journals);
    } else {
      SkewedBelow(b, n - 1);
      SumPlus(DebitBelow(n - 1), DebitIn(n - 1), DebitBelow(n), b.gl);
      SumPlus(CreditBelow(n - 1), CreditIn(n - 1), CreditBelow(n), b.gl);
      SumPlus(SkewBelow(n - 1), SkewIn(n - 1), SkewBelow(n), b.journals);
    }
  }

  lemma LedgerSkew(b: Books)
    requires Inv(b)
    ensures Sum(PostingDebit(), b.gl) - Sum(PostingCredit(), b.gl) == Sum(PostedSkew(), b.journals)
  {
    forall r | r in b.gl ensures r.period < |b.periods| {
      assert JournalOk(b, r.journal);
    }
    forall j | j in b.journals ensures j.period < |b.periods| {
      var i :| 0 <= i < |b.journals| && b.journals[i] == j;
      assert JournalOk(b, i);
    }
    SkewedBelow(b, |b.periods|);
    SumEqual(PostingDebit(), DebitBelow(|b.periods|), b.gl);
    SumEqual(PostingCredit(), CreditBelow(|b.periods|), b.gl);
    SumEqual(PostedSkew(), SkewBelow(|b.periods|), b.journals);
  }

  /** After any run the whole ledger balances exactly when the stored debits of the
      posted journals add up to their stored credits. */
  lemma WholeLedgerBalancesIff(ops: seq<Op>, column: ReversalColumn)
    ensures var b := Run(EMPTY, ops, column);
            Sum(PostingDebit(), b.gl) == Sum(PostingCredit(), b.gl) <==> Sum(PostedSkew(), b.journals) == 0
  {
    EmptyBooksInv();
    RunKeepsInv(EMPTY, ops, column);
    LedgerSkew(Run(EMPTY, ops, column));
  }

  /** Half a unit for each line and one for the totals, of journals that are posted
      and neither reversed nor reversals. */
  function SkewRoom(): Journal -> int {
    (j: Journal) => if j.status == Draft || Balanced(j.lines) then 0 else |j.lines| + 2
  }

  /** After any run the difference is at most 0.00005 for each line of a posted
      journal and 0.0001 for the journal; reversed journals and their reversals add nothing. */
  lemma WholeLedgerSkewBound(ops: seq<Op>, column: ReversalColumn)
    ensures var b := Run(EMPTY, ops, column);
            && 2 * Abs(Sum(PostingDebit(), b.gl) - Sum(PostingCredit(), b.gl)) <= Sum(SkewRoom(), b.journals)
            && forall i | 0 <= i < |b.journals| && b.journals[i].reversedBy.Some? ::
                 SkewRoom()(b.journals[i]) == 0 && b.journals[i].reversedBy.value < |b.journals|
                 && SkewRoom()(b.journals[b.journals[i].reversedBy.value]) == 0
  {
    var b := Run(EMPTY, ops, column);
    EmptyBooksInv();
    RunKeepsInv(EMPTY, ops, column);
    LedgerSkew(b);
    forall j | j in b.journals ensures 2 * Abs(PostedSkew()(j)) <= SkewRoom()(j) {
      var i :| 0 <= i < |b.journals| && b.journals[i] == j;
      assert JournalOk(b, i);
    }
    SumWithin(PostedSkew(), SkewRoom(), b.journals);
    forall i | 0 <= i < |b.journals| && b.journals[i].reversedBy.Some?
      ensures SkewRoom()(b.journals[i]) == 0 && b.journals[i].reversedBy.value < |b.journals|
      ensures SkewRoom()(b.journals[b.journals[i].reversedBy.value]) == 0
    {
      assert JournalOk(b, i) && ReversalOk(b, i);
      SwapTotals(b.journals[i].lines);
    }
  }

  lemma {:induction false} SumWithin<T>(f: T -> int, room: T -> int, s: seq<T>)
    requires forall x | x in s :: 2 * Abs(f(x)) <= room(x)
    ensures 2 * Abs(Sum(f, s)) <= Sum(room, s)
  {
    if s != [] {
      assert s[|s| - 1] in s;
      SumWithin(f, room, s[..|s| - 1]);
    }
  }

  // ------------------------------------------------------------------
  // Requests of at most four decimals
  // ------------------------------------------------------------------

  predicate WholeLines(lines: seq<RawLine>) { forall l | l in lines :: Whole(l.debit) && Whole(l.credit) }

  predicate WholeOp(op: Op) {
    match op
    case OpCreate(dto, _) => WholeLines(dto.lines)
    case OpAutoPost(dto, _) => WholeLines(dto.lines)
    case _ => true
  }

  /** The stored totals are those of the stored lines. */
  predicate ExactTotals(j: Journal) { j.totalDebit == TotalDebit(j.lines) && j.totalCredit == TotalCredit(j.lines) }

  lemma WholeIsExact(dto: JournalDto, number: JournalNumber)
    requires WholeLines(dto.lines)
    ensures ExactTotals(NewJournal(dto, number))
  {
    StoreTotals(dto.lines);
    DriftBound(RawDebit(), dto.lines);
    DriftBound(RawCredit(), dto.lines);
  }

  lemma ReversalIsExact(b: Books, id: nat, period: nat, today: int, number: JournalNumber)
    requires id < |b.journals| && CreateAndPost(b, ReversalDto(b, id, period, today), number).Ok?
    ensures ExactTotals(NewJournal(ReversalDto(b, id, period, today), number))
  {
    var lines := SwapAll(b.journals[id].lines);
    if AllOneSided(lines) {
      ExactlyStores(lines);
    }
  }

  /** Rows that already exist keep totals and lines; the new one, if any, is exact. */
  lemma ApplyKeepsExact(b: Books, op: Op, column: ReversalColumn, i: nat)
    requires WholeOp(op) && forall j | j in b.journals :: ExactTotals(j)
    requires i < |Apply(b, op, column).journals|
    ensures ExactTotals(Apply(b, op, column).journals[i])
  {
    if i < |b.journals| {
      ApplyEvolves(b, op, column, i);
      assert b.journals[i] in b.journals;
    } else {
      match op
      case OpCreate(dto, number) => WholeIsExact(dto, number);
      case OpAutoPost(dto, number) =>
        WholeIsExact(dto, number);
        CreateAndPostShape(b, dto, number);
      case OpReverse(id, period, today, number) =>
        ReverseShape(b, id, period, today, number, column);
        CreateAndPostShape(b, ReversalDto(b, id, period, today), number);
        ReversalIsExact(b, id, period, today, number);
      case _ =>
    }
  }

  lemma {:induction false} RunKeepsExact(b: Books, ops: seq<Op>, column: ReversalColumn)
    requires (forall op | op in ops :: WholeOp(op)) && forall j | j in b.journals :: ExactTotals(j)
    ensures forall j | j in Run(b, ops, column).journals :: ExactTotals(j)
    decreases ops
  {
    if ops != [] {
      var b1 := Apply(b, ops[0], column);
      forall j | j in b1.journals ensures ExactTotals(j) {
        var i :| 0 <= i < |b1.journals| && b1.journals[i] == j;
        ApplyKeepsExact(b, ops[0], column, i);
      }
      RunKeepsExact(b1, ops[1..], column);
    }
  }

  /** With at most four decimals in every request, the ledger balances exactly, as a
      whole and in every period. */
  lemma FourDecimalsBalance(ops: seq<Op>, column: ReversalColumn)
    requires forall op | op in ops :: WholeOp(op)
    ensures var b := Run(EMPTY, ops, column);
            && Sum(PostingDebit(), b.gl) == Sum(PostingCredit(), b.gl)
            && forall p: nat :: Sum(DebitIn(p), b.gl) == Sum(CreditIn(p), b.gl)
  {
    var b := Run(EMPTY, ops, column);
    EmptyBooksInv();
    RunKeepsInv(EMPTY, ops, column);
    RunKeepsExact(EMPTY, ops, column);
    forall j | j in b.journals ensures j.status != Draft ==> Skew(j) == 0 {
      var i :| 0 <= i < |b.journals| && b.journals[i] == j;
      assert JournalOk(b, i);
    }
    LedgerSkew(b);
    SumZero(PostedSkew(), b.journals);
    forall p: nat ensures Sum(SkewIn(p), b.journals) == 0 {
      SumZero(SkewIn(p), b.journals);
    }
  }

  // ------------------------------------------------------------------
  // Thirds
  // ------------------------------------------------------------------

  /** Three debits of 33.33333 against a credit of 100. */
  function Thirds(debited: Id, credited: Id): seq<RawLine> {
    [RawLine(debited, 333333.3, 0.0), RawLine(debited, 333333.3, 0.0), RawLine(debited, 333333.3, 0.0),
     RawLine(credited, 0.0, 1000000.0)]
  }

  function StoredThirds(debited: Id, credited: Id): seq<Line> {
    [Line(debited, 333333, 0), Line(debited, 333333, 0), Line(debited, 333333, 0), Line(credited, 0, 1000000)]
  }

  lemma ThirdsTotals(debited: Id, credited: Id)
    ensures RawTotalDebit(Thirds(debited, credited)) == 999999.9
    ensures RawTotalCredit(Thirds(debited, credited)) == 1000000.0
    ensures StoreAll(Thirds(debited, credited)) == StoredThirds(debited, credited)
  {
    var raw := Thirds(debited, credited);
    var third, whole := raw[0], raw[3];
    assert raw == (([third] + [third]) + [third]) + [whole];
    forall f | f == RawDebit() || f == RawCredit()
      ensures RealSum(f, raw) == f(third) + f(third) + f(third) + f(whole)
    {
      RealSumOne(f, [third], third);
      RealSumAppend(f, [third], third);
      RealSumAppend(f, [third] + [third], third);
      RealSumAppend(f, ([third] + [third]) + [third], whole);
    }
  }

  lemma StoredThirdsTotals(debited: Id, credited: Id)
    ensures TotalDebit(StoredThirds(debited, credited)) == 999999
    ensures TotalCredit(StoredThirds(debited, credited)) == 1000000
  {
    var lines := StoredThirds(debited, credited);
    var third, whole := lines[0], lines[3];
    assert lines == (([third] + [third]) + [third]) + [whole];
    forall f | f == DebitOf() || f == CreditOf() ensures Sum(f, lines) == f(third) + f(third) + f(third) + f(whole) {
      SumOne(f, [third], third);
      SumAppend(f, [third], third);
      SumAppend(f, [third] + [third], third);
      SumAppend(f, ([third] + [third]) + [third], whole);
    }
  }

  lemma ThirdsPost(debited: Id, credited: Id, number: JournalNumber, column: ReversalColumn) returns (ops: seq<Op>)
    ensures Run(EMPTY, ops, column).journals
         == [Journal(number, 0, 15, None, Posted, 1000000, 1000000, StoredThirds(debited, credited), None)]
  {
    var dto := JournalDto(0, 15 * DAY, None, Thirds(debited, credited));
    ops := OpenOps() + [OpAutoPost(dto, number)];
    OpenedBooks(column);
    RunAppend(EMPTY, OpenOps(), OpAutoPost(dto, number), column);
    ThirdsTotals(debited, credited);
    var stored := StoredThirds(debited, credited);
    assert LineError(dto.lines).None?;
    assert AllOneSided(stored);
    CreateAndPostIff(OPENED, dto, number);
    CreateAndPostShape(OPENED, dto, number);
  }

  /** The journal of thirds is posted, the ledger then differs by 0.0001, and the
      journal can never be reversed. */
  lemma ThirdsUnbalanceLedger(debited: Id, credited: Id, number: JournalNumber, column: ReversalColumn)
    returns (ops: seq<Op>)
    ensures var b := Run(EMPTY, ops, column);
            && |b.journals| == 1 && b.journals[0].status == Posted
            && Sum(PostingDebit(), b.gl) - Sum(PostingCredit(), b.gl) == -1
            && forall period, today, next :: Reverse(b, 0, period, today, next, TextColumn).Err?
  {
    ops := ThirdsPost(debited, credited, number, column);
    var b := Run(EMPTY, ops, column);
    EmptyBooksInv();
    RunKeepsInv(EMPTY, ops, column);
    StoredThirdsTotals(debited, credited);
    LedgerSkew(b);
    SumOne(PostedSkew(), b.journals, b.journals[0]);
    forall period, today, next ensures Reverse(b, 0, period, today, next, TextColumn).Err? {
      Reversals.ReverseCommitsIff(b, 0, period, today, next, TextColumn);
    }
  }
}
