/** What every run of accounting transactions keeps. */
module BooksInvariant {
  import opened Common
  import opened Sums
  import opened Filters
  import opened Rounding
  import opened Books

  function OfJournal(i: nat): Posting -> bool { (r: Posting) => r.journal == i }

  function OfPeriod(p: nat): Posting -> bool { (r: Posting) => r.period == p }

  function DebitIn(p: nat): Posting -> int { (r: Posting) => if r.period == p then r.debit else 0 }

  function CreditIn(p: nat): Posting -> int { (r: Posting) => if r.period == p then r.credit else 0 }

  ghost predicate PeriodsOk(b: Books) {
    && (forall y | y in b.years :: y.start < y.end)
    && (forall p | p in b.periods ::
          && p.year < |b.years|
          && b.years[p.year].start <= p.start < p.end <= b.years[p.year].end
          && (p.status == Open ==> b.years[p.year].open))
    && (forall i, j | 0 <= i < j < |b.periods| && b.periods[i].year == b.periods[j].year ::
          && b.periods[i].number != b.periods[j].number
          && !Overlaps(b.periods[i], b.periods[j].start, b.periods[j].end))
  }

  /** What the separate rounding of lines and totals leaves between the two sides. */
  function Skew(j: Journal): int { TotalDebit(j.lines) - TotalCredit(j.lines) }

  /** The part of it that a period's ledger rows carry. */
  function SkewIn(p: nat): Journal -> int {
    (j: Journal) => if j.status != Draft && j.period == p then Skew(j) else 0
  }

  ghost predicate JournalOk(b: Books, i: nat)
    requires i < |b.journals|
  {
    var j := b.journals[i];
    && j.period < |b.periods|
    && b.periods[j.period].start <= j.date <= b.periods[j.period].end
    && j.lines != [] && AllOneSided(j.lines)
    && (j.totalDebit == j.totalCredit ==> 2 * Abs(Skew(j)) <= |j.lines| + 2)
    && (j.status == Draft ==> b.periods[j.period].status == Open)
    && (j.status != Draft ==> j.totalDebit == j.totalCredit)
    && (j.status == Reversed ==> Balanced(j.lines))
    && (j.status == Reversed <==> j.reversedBy.Some?)
    && Filter(OfJournal(i), b.gl) == (if j.status == Draft then [] else PostingsOf(j, i))
  }

  /** A reversed journal and its reversal. */
  ghost predicate ReversalOk(b: Books, i: nat)
    requires i < |b.journals|
  {
    var j := b.journals[i];
    j.reversedBy.Some? ==>
      && j.reversedBy.value < |b.journals|
      && var r := b.journals[j.reversedBy.value];
         r.reference == Some(Reference("journal_reversal", i)) && r.lines == SwapAll(j.lines) && r.status != Draft
  }

  ghost predicate ReferencesUnique(b: Books) {
    forall i, j | 0 <= i < j < |b.journals| && b.journals[i].reference.Some? ::
      b.journals[i].reference != b.journals[j].reference
  }

  ghost predicate GlOk(b: Books) {
    && (forall r | r in b.gl :: r.journal < |b.journals| && r.period == b.journals[r.journal].period)
    && (forall p: nat :: Sum(DebitIn(p), b.gl) - Sum(CreditIn(p), b.gl) == Sum(SkewIn(p), b.journals))
  }

  ghost predicate Inv(b: Books) {
    && PeriodsOk(b)
    && (forall i | 0 <= i < |b.journals| :: JournalOk(b, i))
    && (forall i | 0 <= i < |b.journals| :: ReversalOk(b, i))
    && ReferencesUnique(b)
    && GlOk(b)
  }

  // ------------------------------------------------------------------
  // Requested and stored lines
  // ------------------------------------------------------------------

  lemma {:induction false} StoreTotals(raw: seq<RawLine>)
    ensures TotalDebit(StoreAll(raw)) == StoredSum(RawDebit(), raw)
    ensures TotalCredit(StoreAll(raw)) == StoredSum(RawCredit(), raw)
  {
    if raw != [] {
      var m := |raw| - 1;
      StoreTotals(raw[..m]);
      assert StoreAll(raw)[..m] == StoreAll(raw[..m]);
    }
  }

  /** Storing a line moves its net by at most half a unit, since one side is zero. */
  lemma {:induction false} NetError(raw: seq<RawLine>)
    requires forall l | l in raw :: l.debit == 0.0 || l.credit == 0.0
    ensures Distance((TotalDebit(StoreAll(raw)) - TotalCredit(StoreAll(raw))) as real,
              RawTotalDebit(raw) - RawTotalCredit(raw))
            <= 0.5 * |raw| as real
  {
    if raw != [] {
      var m := |raw| - 1;
      NetError(raw[..m]);
      assert StoreAll(raw)[..m] == StoreAll(raw[..m]);
      assert raw[m] in raw;
      NearestError(raw[m].debit);
      NearestError(raw[m].credit);
      NearestWhole(0);
    }
  }

  /** When the stored totals agree, the stored lines differ by at most half a unit
      for each line and one for the two totals. */
  lemma SkewBound(raw: seq<RawLine>)
    requires LineError(raw).None? && Nearest(RawTotalDebit(raw)) == Nearest(RawTotalCredit(raw))
    ensures 2 * Abs(TotalDebit(StoreAll(raw)) - TotalCredit(StoreAll(raw))) <= |raw| + 2
  {
    NetError(raw);
    NearestError(RawTotalDebit(raw));
    NearestError(RawTotalCredit(raw));
  }

  /** Stored values come back unchanged, totals included. */
  lemma ExactlyStores(lines: seq<Line>)
    requires AllOneSided(lines)
    ensures StoreAll(Exactly(lines)) == lines
    ensures RawTotalDebit(Exactly(lines)) == TotalDebit(lines) as real
              && RawTotalCredit(Exactly(lines)) == TotalCredit(lines) as real
    ensures Nearest(RawTotalDebit(Exactly(lines))) == TotalDebit(lines)
    ensures Nearest(RawTotalCredit(Exactly(lines))) == TotalCredit(lines)
  {
    var raw := Exactly(lines);
    forall i | 0 <= i < |lines| ensures Store(raw[i]) == lines[i] {
      NearestWhole(lines[i].debit);
      NearestWhole(lines[i].credit);
    }
    assert StoreAll(raw) == lines;
    ExactlyTotals(lines);
    NearestWhole(TotalDebit(lines));
    NearestWhole(TotalCredit(lines));
  }

  lemma {:induction false} ExactlyTotals(lines: seq<Line>)
    requires AllOneSided(lines)
    ensures RawTotalDebit(Exactly(lines)) == TotalDebit(lines) as real
              && RawTotalCredit(Exactly(lines)) == TotalCredit(lines) as real
  {
    if lines != [] {
      var m := |lines| - 1;
      assert AllOneSided(lines[..m]);
      ExactlyTotals(lines[..m]);
      var raw, front := Exactly(lines), Exactly(lines[..m]);
      assert forall i | 0 <= i < m :: raw[i] == front[i];
      assert raw[..m] == front;
    }
  }

  /** A request of stored values can be posted exactly when they balance. */
  lemma ExactlyPostable(lines: seq<Line>)
    requires lines != [] && AllOneSided(lines)
    ensures PostableLines(Exactly(lines)) <==> Balanced(lines)
  {
    ExactlyStores(lines);
    forall l | l in Exactly(lines) ensures (l.debit > 0.0 && l.credit == 0.0) || (l.credit > 0.0 && l.debit == 0.0) {
      var i :| 0 <= i < |lines| && Exactly(lines)[i] == l;
      assert lines[i] in lines;
    }
  }

  /** Lines are accepted exactly when there are any, the two totals differ by at most
      0.01, and each line has one side that does not round to zero and nothing on the other. */
  lemma AcceptedLinesIff(lines: seq<RawLine>)
    ensures AcceptedLines(lines) <==>
            && lines != []
            && -100.0 <= RealSum(RawDebit(), lines) - RealSum(RawCredit(), lines) <= 100.0
            && forall l | l in lines :: (l.debit >= 0.5 && l.credit == 0.0) || (l.credit >= 0.5 && l.debit == 0.0)
  {
    var stored := StoreAll(lines);
    forall l | l in lines
      ensures OneSided(Store(l)) && ((l.debit > 0.0 && l.credit == 0.0) || (l.credit > 0.0 && l.debit == 0.0))
              <==> (l.debit >= 0.5 && l.credit == 0.0) || (l.credit >= 0.5 && l.debit == 0.0)
    {
      NearestWhole(0);
    }
    if AllOneSided(stored) {
      forall l | l in lines ensures OneSided(Store(l)) {
        var i :| 0 <= i < |lines| && lines[i] == l;
        assert stored[i] in stored;
      }
    }
    if forall l | l in lines :: OneSided(Store(l)) {
      forall l | l in stored ensures OneSided(l) {
        var i :| 0 <= i < |stored| && stored[i] == l;
        assert lines[i] in lines;
      }
    }
  }

  lemma {:induction false} SwapTotals(lines: seq<Line>)
    ensures TotalDebit(SwapAll(lines)) == TotalCredit(lines)
    ensures TotalCredit(SwapAll(lines)) == TotalDebit(lines)
  {
    if lines != [] {
      var m := |lines| - 1;
      SwapTotals(lines[..m]);
      assert SwapAll(lines)[..m] == SwapAll(lines[..m]);
    }
  }

  /** Swapping keeps lines one-sided and balanced, and twice gives them back. */
  lemma SwapAccepted(lines: seq<Line>)
    ensures AllOneSided(SwapAll(lines)) <==> AllOneSided(lines)
    ensures Balanced(SwapAll(lines)) <==> Balanced(lines)
    ensures SwapAll(SwapAll(lines)) == lines
  {
    SwapTotals(lines);
    var s := SwapAll(lines);
    if AllOneSided(lines) {
      forall l | l in s ensures OneSided(l) {
        var i :| 0 <= i < |s| && s[i] == l;
        assert lines[i] in lines;
      }
    }
    if AllOneSided(s) {
      forall l | l in lines ensures OneSided(l) {
        var i :| 0 <= i < |lines| && lines[i] == l;
        assert s[i] in s;
      }
    }
  }

  // ------------------------------------------------------------------
  // Every transaction keeps the invariant
  // ------------------------------------------------------------------

  lemma NewJournalOk(dto: JournalDto, number: JournalNumber)
    requires AcceptedLines(dto.lines)
    ensures var j := NewJournal(dto, number);
            && j.lines != [] && AllOneSided(j.lines)
            && (j.totalDebit == j.totalCredit ==> 2 * Abs(Skew(j)) <= |j.lines| + 2)
  {
    if Nearest(RawTotalDebit(dto.lines)) == Nearest(RawTotalCredit(dto.lines)) {
      SkewBound(dto.lines);
    }
  }

  lemma CreateKeepsInv(b: Books, dto: JournalDto, number: JournalNumber)
    requires Inv(b) && Create(b, dto, number).Ok?
    ensures Inv(Create(b, dto, number).value)
  {
    var b' := Create(b, dto, number).value;
    var n := |b.journals|;
    NewJournalOk(dto, number);
    FilterNone(OfJournal(n), b.gl);
    forall i | 0 <= i < |b'.journals| ensures JournalOk(b', i) && ReversalOk(b', i) {
      if i < n {
        assert JournalOk(b, i) && ReversalOk(b, i);
      }
    }
    forall i, j | 0 <= i < j < |b'.journals| && b'.journals[i].reference.Some?
      ensures b'.journals[i].reference != b'.journals[j].reference
    {
      if j == n {
        assert b.journals[i] in b.journals;
      }
    }
    forall p: nat ensures Sum(SkewIn(p), b'.journals) == Sum(SkewIn(p), b.journals) {
      SumAppend(SkewIn(p), b.journals, NewJournal(dto, number));
    }
  }

  lemma {:induction false} PostingTotals(j: Journal, id: nat, lines: seq<Line>, p: nat)
    requires j.lines == lines
    ensures Sum(DebitIn(p), PostingsOf(j, id)) == if p == j.period then TotalDebit(lines) else 0
    ensures Sum(CreditIn(p), PostingsOf(j, id)) == if p == j.period then TotalCredit(lines) else 0
    decreases lines
  {
    if lines != [] {
      var m := |lines| - 1;
      var front := j.(lines := lines[..m]);
      PostingTotals(front, id, lines[..m], p);
      assert PostingsOf(j, id) == PostingsOf(front, id) + [PostingOf(lines[m], j.period, id)];
      SumAppend(DebitIn(p), PostingsOf(front, id), PostingOf(lines[m], j.period, id));
      SumAppend(CreditIn(p), PostingsOf(front, id), PostingOf(lines[m], j.period, id));
    }
  }

  lemma OwnRows(j: Journal, id: nat, i: nat)
    ensures Filter(OfJournal(i), PostingsOf(j, id)) == if i == id then PostingsOf(j, id) else []
  {
    if i == id {
      FilterAll(OfJournal(i), PostingsOf(j, id));
    } else {
      FilterNone(OfJournal(i), PostingsOf(j, id));
    }
  }

  lemma PostRows(b: Books, id: nat, i: nat)
    requires Post(b, id).Ok?
    ensures Filter(OfJournal(i), Post(b, id).value.gl)
         == Filter(OfJournal(i), b.gl) + if i == id then PostingsOf(b.journals[id], id) else []
  {
    FilterConcat(OfJournal(i), b.gl, PostingsOf(b.journals[id], id));
    OwnRows(b.journals[id], id, i);
  }

  /** Posting turns a journal's skew from pending into part of its period's. */
  lemma PostMovesSkew(b: Books, id: nat, p: nat)
    requires Post(b, id).Ok?
    ensures var b' := Post(b, id).value;
            Sum(DebitIn(p), b'.gl) - Sum(CreditIn(p), b'.gl) - Sum(SkewIn(p), b'.journals)
            == Sum(DebitIn(p), b.gl) - Sum(CreditIn(p), b.gl) - Sum(SkewIn(p), b.journals)
  {
    var rows := PostingsOf(b.journals[id], id);
    SumConcat(DebitIn(p), b.gl, rows);
    SumConcat(CreditIn(p), b.gl, rows);
    PostingTotals(b.journals[id], id, b.journals[id].lines, p);
    SumUpdate(SkewIn(p), b.journals, id, b.journals[id].(status := Posted));
  }

  lemma PostKeepsInv(b: Books, id: nat)
    requires Inv(b) && Post(b, id).Ok?
    ensures Inv(Post(b, id).value)
  {
    var b' := Post(b, id).value;
    forall i | 0 <= i < |b'.journals| ensures JournalOk(b', i) && ReversalOk(b', i) {
      assert JournalOk(b, i) && ReversalOk(b, i);
      PostRows(b, id, i);
      assert PostingsOf(b'.journals[i], i) == PostingsOf(b.journals[i], i);
    }
    forall p: nat ensures Sum(DebitIn(p), b'.gl) - Sum(CreditIn(p), b'.gl) == Sum(SkewIn(p), b'.journals) {
      PostMovesSkew(b, id, p);
    }
  }

  lemma CreateAndPostKeepsInv(b: Books, dto: JournalDto, number: JournalNumber)
    requires Inv(b) && CreateAndPost(b, dto, number).Ok?
    ensures Inv(CreateAndPost(b, dto, number).value)
  {
    CreateKeepsInv(b, dto, number);
    PostKeepsInv(Create(b, dto, number).value, |b.journals|);
  }

  /** What a committed reversal consists of: the swapped journal, posted, and the mark. */
  lemma ReverseShape(b: Books, id: nat, period: nat, today: int, number: JournalNumber, column: ReversalColumn)
    requires Reverse(b, id, period, today, number, column).Ok?
    ensures id < |b.journals| && b.journals[id].status == Posted && b.journals[id].reversedBy.None?
    ensures CreateAndPost(b, ReversalDto(b, id, period, today), number).Ok?
    ensures var b2 := CreateAndPost(b, ReversalDto(b, id, period, today), number).value;
            id < |b2.journals|
                && Reverse(b, id, period, today, number, column).value == MarkReversed(b2, id, |b.journals|)
  {
  }

  predicate Reversible(b: Books, id: nat, period: nat) {
    && id < |b.journals| && b.journals[id].status == Posted && b.journals[id].reversedBy.None?
    && period < |b.periods| && b.periods[period].status == Open
  }

  /** Past its guards, a reversal hinges on the new journal and on the column. */
  lemma ReverseCases(b: Books, id: nat, period: nat, today: int, number: JournalNumber, column: ReversalColumn)
    requires Reversible(b, id, period)
    ensures var posted := CreateAndPost(b, ReversalDto(b, id, period, today), number);
            match posted
            case Err(e) => Reverse(b, id, period, today, number, column) == Err(e)
            case Ok(b2) =>
              id < |b2.journals|
              && Reverse(b, id, period, today, number, column)
                 == if Accepts(column, b.journals[id].number)
                    then Ok(MarkReversed(b2, id, |b.journals|))
                    else Err(InvalidReversalOf)
  {
    if CreateAndPost(b, ReversalDto(b, id, period, today), number).Ok? {
      CreateAndPostShape(b, ReversalDto(b, id, period, today), number);
    }
  }

  function MarkReversed(b: Books, id: nat, reversal: nat): Books
    requires id < |b.journals|
  {
    b.(journals := b.journals[id := b.journals[id].(status := Reversed, reversedBy := Some(reversal))])
  }

  /** The row that autoPost adds; all others stay. */
  lemma CreateAndPostShape(b: Books, dto: JournalDto, number: JournalNumber)
    requires CreateAndPost(b, dto, number).Ok?
    ensures var b' := CreateAndPost(b, dto, number).value;
            var n := |b.journals|;
            && b'.periods == b.periods && b'.years == b.years
            && b'.journals == b.journals + [NewJournal(dto, number).(status := Posted)]
            && PostableLines(dto.lines)
            && b'.gl == b.gl + PostingsOf(b'.journals[n], n)
  {
    var b1 := Create(b, dto, number).value;
    var b' := CreateAndPost(b, dto, number).value;
    var n := |b.journals|;
    assert PostingsOf(b1.journals[n], n) == PostingsOf(b'.journals[n], n);
  }

  lemma MarkKeepsSkew(b: Books, id: nat, reversal: nat, p: nat)
    requires id < |b.journals| && b.journals[id].status == Posted
    ensures Sum(SkewIn(p), MarkReversed(b, id, reversal).journals) == Sum(SkewIn(p), b.journals)
  {
    SumUpdate(SkewIn(p), b.journals, id, MarkReversed(b, id, reversal).journals[id]);
  }

  lemma MarkKeepsRow(b: Books, id: nat, reversal: nat, i: nat)
    requires id < |b.journals| && i < |b.journals| && JournalOk(b, i) && reversal < |b.journals|
    requires b.journals[id].status == Posted && Balanced(b.journals[id].lines)
    ensures JournalOk(MarkReversed(b, id, reversal), i)
  {
    var b' := MarkReversed(b, id, reversal);
    assert PostingsOf(b'.journals[i], i) == PostingsOf(b.journals[i], i);
  }

  lemma MarkKeepsInv(b: Books, id: nat, reversal: nat)
    requires Inv(b) && id < |b.journals| && reversal < |b.journals|
    requires b.journals[id].status == Posted && b.journals[id].reversedBy.None?
    requires b.journals[reversal].reference == Some(Reference("journal_reversal", id))
    requires b.journals[reversal].lines == SwapAll(b.journals[id].lines) && b.journals[reversal].status != Draft
    requires Balanced(b.journals[id].lines)
    ensures Inv(MarkReversed(b, id, reversal))
  {
    var b' := MarkReversed(b, id, reversal);
    forall i | 0 <= i < |b'.journals| ensures JournalOk(b', i) && ReversalOk(b', i) {
      assert ReversalOk(b, i);
      MarkKeepsRow(b, id, reversal, i);
    }
    forall p: nat ensures Sum(SkewIn(p), b'.journals) == Sum(SkewIn(p), b.journals) {
      MarkKeepsSkew(b, id, reversal, p);
    }
  }

  lemma ReversalKeepsInv(b: Books, id: nat, period: nat, today: int, number: JournalNumber)
    requires Inv(b) && Reversible(b, id, period) && CreateAndPost(b, ReversalDto(b, id, period, today), number).Ok?
    ensures var b2 := CreateAndPost(b, ReversalDto(b, id, period, today), number).value;
            id < |b2.journals| && Inv(MarkReversed(b2, id, |b.journals|))
  {
    var dto := ReversalDto(b, id, period, today);
    CreateAndPostKeepsInv(b, dto, number);
    CreateAndPostShape(b, dto, number);
    assert JournalOk(b, id);
    SwapAccepted(b.journals[id].lines);
    ExactlyStores(SwapAll(b.journals[id].lines));
    MarkKeepsInv(CreateAndPost(b, dto, number).value, id, |b.journals|);
  }

  lemma ReverseKeepsInv(b: Books, id: nat, period: nat, today: int, number: JournalNumber, column: ReversalColumn)
    requires Inv(b) && Reverse(b, id, period, today, number, column).Ok?
    ensures Inv(Reverse(b, id, period, today, number, column).value)
  {
    ReverseShape(b, id, period, today, number, column);
    ReversalKeepsInv(b, id, period, today, number);
  }

  predicate OnPeriods(op: Op) { op.OpCreateYear? || op.OpCreatePeriod? || op.OpPeriodStatus? || op.OpCloseYear? }

  /** Journals stay valid when their periods keep their dates, and those with drafts stay open. */
  lemma PeriodsChange(b: Books, b': Books)
    requires Inv(b) && PeriodsOk(b') && b'.journals == b.journals && b'.gl == b.gl && |b'.periods| >= |b.periods|
    requires forall p | 0 <= p < |b.periods| ::
               b'.periods[p].start == b.periods[p].start && b'.periods[p].end == b.periods[p].end
    requires forall j | j in b.journals && j.status == Draft :: j.period < |b'.periods|
                && b'.periods[j.period].status == Open
    ensures Inv(b')
  {
    forall i | 0 <= i < |b'.journals| ensures JournalOk(b', i) && ReversalOk(b', i) {
      assert JournalOk(b, i) && ReversalOk(b, i) && b.journals[i] in b.journals;
    }
  }

  lemma DraftsAreOpen(b: Books)
    requires Inv(b)
    ensures forall j | j in b.journals && j.status == Draft :: j.period < |b.periods|
              && b.periods[j.period].status == Open
  {
    forall j | j in b.journals && j.status == Draft
      ensures j.period < |b.periods| && b.periods[j.period].status == Open
    {
      var i :| 0 <= i < |b.journals| && b.journals[i] == j;
      assert JournalOk(b, i);
    }
  }

  lemma AddPeriodKeepsInv(b: Books, year: nat, number: int, start: int, end: int)
    requires Inv(b) && CreatePeriod(b, year, number, start, end).Ok?
    ensures Inv(CreatePeriod(b, year, number, start, end).value)
  {
    var b' := CreatePeriod(b, year, number, start, end).value;
    forall i, j | 0 <= i < j < |b'.periods| && b'.periods[i].year == b'.periods[j].year
      ensures b'.periods[i].number != b'.periods[j].number
      ensures !Overlaps(b'.periods[i], b'.periods[j].start, b'.periods[j].end)
    {
      assert b'.periods[i] in b.periods;
    }
    DraftsAreOpen(b);
    PeriodsChange(b, b');
  }

  lemma PeriodStatusKeepsInv(b: Books, period: nat, status: PeriodStatus)
    requires Inv(b) && UpdatePeriodStatus(b, period, status).Ok?
    ensures Inv(UpdatePeriodStatus(b, period, status).value)
  {
    var b' := UpdatePeriodStatus(b, period, status).value;
    assert b.periods[period] in b.periods;
    DraftsAreOpen(b);
    PeriodsChange(b, b');
  }

  lemma YearOpsKeepInv(b: Books, op: Op, column: ReversalColumn)
    requires Inv(b) && (op.OpCreateYear? || op.OpCloseYear?) && Outcome(b, op, column).Ok?
    ensures Inv(Outcome(b, op, column).value)
  {
    DraftsAreOpen(b);
    PeriodsChange(b, Outcome(b, op, column).value);
  }

  lemma PeriodOpsKeepInv(b: Books, op: Op, column: ReversalColumn)
    requires Inv(b) && Outcome(b, op, column).Ok?
    requires OnPeriods(op)
    ensures Inv(Outcome(b, op, column).value)
  {
    match op
    case OpCreatePeriod(year, number, start, end) => AddPeriodKeepsInv(b, year, number, start, end);
    case OpPeriodStatus(period, status) => PeriodStatusKeepsInv(b, period, status);
    case _ => YearOpsKeepInv(b, op, column);
  }

  lemma ApplyKeepsInv(b: Books, op: Op, column: ReversalColumn)
    requires Inv(b)
    ensures Inv(Apply(b, op, column))
  {
    if Outcome(b, op, column).Ok? {
      match op
      case OpCreate(dto, number) => CreateKeepsInv(b, dto, number);
      case OpPost(id) => PostKeepsInv(b, id);
      case OpReverse(id, period, today, number) => ReverseKeepsInv(b, id, period, today, number, column);
      case OpAutoPost(dto, number) => CreateAndPostKeepsInv(b, dto, number);
      case _ => PeriodOpsKeepInv(b, op, column);
    }
  }

  /** In every state reached from empty books: closed periods hold no draft,
      closed years no open period, periods of a year do not overlap and stay inside
      it, every journal is dated inside its period and has exactly its own ledger
      rows, and a period's debits and credits differ by exactly what its posted
      journals' stored lines do. */
  lemma {:induction false} RunKeepsInv(b: Books, ops: seq<Op>, column: ReversalColumn)
    requires Inv(b)
    ensures Inv(Run(b, ops, column))
    decreases ops
  {
    if ops != [] {
      ApplyKeepsInv(b, ops[0], column);
      RunKeepsInv(Apply(b, ops[0], column), ops[1..], column);
    }
  }

  lemma EmptyBooksInv()
    ensures Inv(EMPTY)
  {
  }

  /** A period's status can be changed exactly in these ways: an open one without drafts
      to closed or locked, a closed one to locked. */
  lemma PeriodStatusIff(b: Books, p: nat, status: PeriodStatus)
    requires Inv(b)
    ensures UpdatePeriodStatus(b, p, status).Ok? <==>
            && p < |b.periods|
            && match b.periods[p].status
               case Open => status != Open && !exists j | j in b.journals :: j.period == p && j.status == Draft
               case Closed => status == Locked
               case Locked => false
  {
    if p < |b.periods| && b.periods[p].status == Closed {
      forall j | j in b.journals && j.period == p ensures j.status != Draft {
        var i :| 0 <= i < |b.journals| && b.journals[i] == j;
        assert JournalOk(b, i);
      }
    }
  }

  // ------------------------------------------------------------------
  // Closed periods are frozen
  // ------------------------------------------------------------------

  lemma OutsideRows(j: Journal, id: nat, p: nat)
    requires j.period != p
    ensures Filter(OfPeriod(p), PostingsOf(j, id)) == []
  {
    FilterNone(OfPeriod(p), PostingsOf(j, id));
  }

  lemma PostOutsidePeriod(b: Books, id: nat, p: nat)
    requires Post(b, id).Ok? && b.journals[id].period != p
    ensures Filter(OfPeriod(p), Post(b, id).value.gl) == Filter(OfPeriod(p), b.gl)
  {
    FilterConcat(OfPeriod(p), b.gl, PostingsOf(b.journals[id], id));
    OutsideRows(b.journals[id], id, p);
  }

  lemma CreateAndPostFreezes(b: Books, dto: JournalDto, number: JournalNumber, p: nat)
    requires CreateAndPost(b, dto, number).Ok? && dto.period != p
    ensures Filter(OfPeriod(p), CreateAndPost(b, dto, number).value.gl) == Filter(OfPeriod(p), b.gl)
  {
    PostOutsidePeriod(Create(b, dto, number).value, |b.journals|, p);
  }

  lemma ReverseFreezes(b: Books, id: nat, period: nat, today: int, number: JournalNumber, column: ReversalColumn,
                       p: nat)
    requires Reverse(b, id, period, today, number, column).Ok? && period != p
    ensures Filter(OfPeriod(p), Reverse(b, id, period, today, number, column).value.gl) == Filter(OfPeriod(p), b.gl)
  {
    ReverseShape(b, id, period, today, number, column);
    CreateAndPostFreezes(b, ReversalDto(b, id, period, today), number, p);
  }

  lemma ApplyFreezes(b: Books, op: Op, column: ReversalColumn, p: nat)
    requires p < |b.periods| && b.periods[p].status != Open
    ensures var b' := Apply(b, op, column);
            p < |b'.periods| && b'.periods[p].status != Open
            && Filter(OfPeriod(p), b'.gl) == Filter(OfPeriod(p), b.gl)
  {
    if Outcome(b, op, column).Ok? {
      match op
      case OpPost(id) => PostOutsidePeriod(b, id, p);
      case OpReverse(id, period, today, number) =>
        ReverseFreezes(b, id, period, today, number, column, p);
        ReverseShape(b, id, period, today, number, column);
        CreateAndPostShape(b, ReversalDto(b, id, period, today), number);
      case OpAutoPost(dto, number) =>
        CreateAndPostFreezes(b, dto, number, p);
        CreateAndPostShape(b, dto, number);
      case _ =>
    }
  }

  /** Once a period is closed or locked, its ledger rows never change again. */
  lemma {:induction false} ClosedPeriodIsFrozen(b: Books, ops: seq<Op>, column: ReversalColumn, p: nat)
    requires p < |b.periods| && b.periods[p].status != Open
    ensures var b' := Run(b, ops, column);
            p < |b'.periods| && b'.periods[p].status != Open
            && Filter(OfPeriod(p), b'.gl) == Filter(OfPeriod(p), b.gl)
    decreases ops
  {
    if ops != [] {
      ApplyFreezes(b, ops[0], column, p);
      ClosedPeriodIsFrozen(Apply(b, ops[0], column), ops[1..], column, p);
    }
  }

  // ------------------------------------------------------------------
  // A draft within the tolerance but not balanced blocks its period for good
  // ------------------------------------------------------------------

  ghost predicate StuckDraft(b: Books, i: nat) {
    && i < |b.journals| && b.journals[i].status == Draft && b.journals[i].totalDebit != b.journals[i].totalCredit
    && b.journals[i].period < |b.periods| && b.periods[b.journals[i].period].status == Open
  }

  /** All that can happen to a journal row: nothing, posting a draft whose totals agree, or
      reversing a posted journal. */
  ghost predicate Evolves(b: Books, b': Books, i: nat)
    requires i < |b.journals|
  {
    i < |b'.journals|
    && var j, j' := b.journals[i], b'.journals[i];
       || j' == j
       || (j.status == Draft && j.totalDebit == j.totalCredit && j' == j.(status := Posted))
       || (j.status == Posted && j' == j.(status := Reversed, reversedBy := j'.reversedBy))
  }

  lemma ReverseEvolves(b: Books, id: nat, period: nat, today: int, number: JournalNumber, column: ReversalColumn,
                       i: nat)
    requires Reverse(b, id, period, today, number, column).Ok? && i < |b.journals|
    ensures Evolves(b, Reverse(b, id, period, today, number, column).value, i)
    ensures Reverse(b, id, period, today, number, column).value.periods == b.periods
  {
    ReverseShape(b, id, period, today, number, column);
    CreateAndPostShape(b, ReversalDto(b, id, period, today), number);
  }

  lemma PostEvolves(b: Books, id: nat, i: nat)
    requires Post(b, id).Ok? && i < |b.journals|
    ensures Evolves(b, Post(b, id).value, i)
  {
  }

  lemma ApplyEvolves(b: Books, op: Op, column: ReversalColumn, i: nat)
    requires i < |b.journals|
    ensures Evolves(b, Apply(b, op, column), i)
    ensures OnPeriods(op) ==> Apply(b, op, column).journals == b.journals
    ensures !OnPeriods(op) ==> Apply(b, op, column).periods == b.periods
  {
    if Outcome(b, op, column).Ok? {
      match op
      case OpPost(id) => PostEvolves(b, id, i);
      case OpReverse(id, period, today, number) => ReverseEvolves(b, id, period, today, number, column, i);
      case OpAutoPost(dto, number) => CreateAndPostShape(b, dto, number);
      case _ =>
    }
  }

  /** No operation on years and periods closes a period that holds a draft. */
  lemma PeriodOpsKeepOpen(b: Books, op: Op, column: ReversalColumn, i: nat)
    requires OnPeriods(op) && i < |b.journals| && b.journals[i].status == Draft
    requires b.journals[i].period < |b.periods| && b.periods[b.journals[i].period].status == Open
    ensures var p := b.journals[i].period;
            p < |Apply(b, op, column).periods| && Apply(b, op, column).periods[p].status == Open
  {
    assert b.journals[i] in b.journals;
  }

  lemma ApplyKeepsStuck(b: Books, op: Op, column: ReversalColumn, i: nat)
    requires StuckDraft(b, i)
    ensures StuckDraft(Apply(b, op, column), i)
    ensures Apply(b, op, column).journals[i] == b.journals[i]
  {
    ApplyEvolves(b, op, column, i);
    if OnPeriods(op) {
      PeriodOpsKeepOpen(b, op, column, i);
    }
  }

  /** `create` admits a draft whose totals differ by up to 0.01, but `post` can
      never succeed on it, nothing deletes it, and its period and year stay open
      through every later run. */
  lemma {:induction false} StuckDraftForever(b: Books, ops: seq<Op>, column: ReversalColumn, i: nat)
    requires Inv(b) && StuckDraft(b, i)
    ensures var b' := Run(b, ops, column);
            && StuckDraft(b', i) && b'.journals[i] == b.journals[i]
            && Post(b', i) == Err(CheckViolation)
            && UpdatePeriodStatus(b', b.journals[i].period, Closed) == Err(HasDrafts)
            && UpdatePeriodStatus(b', b.journals[i].period, Locked) == Err(HasDrafts)
            && CloseYear(b', b'.periods[b.journals[i].period].year) == Err(HasOpenPeriods)
    decreases ops
  {
    if ops != [] {
      ApplyKeepsInv(b, ops[0], column);
      ApplyKeepsStuck(b, ops[0], column, i);
      StuckDraftForever(Apply(b, ops[0], column), ops[1..], column, i);
    } else {
      assert b.journals[i] in b.journals;
      assert b.periods[b.journals[i].period] in b.periods;
    }
  }

  /** Books with one open year and one open period, and how to get there. */
  function OpenOps(): seq<Op> { [OpCreateYear(0, 365), OpCreatePeriod(0, 1, 0, 31)] }

  const OPENED := Books([Year(0, 365, true)], [Period(0, 1, 0, 31, Open)], [], [])

  lemma {:induction false} RunAppend(b: Books, ops: seq<Op>, op: Op, column: ReversalColumn)
    ensures Run(b, ops + [op], column) == Apply(Run(b, ops, column), op, column)
    decreases ops
  {
    if ops == [] {
      assert ops + [op] == [op] && [op][1..] == [];
    } else {
      assert (ops + [op])[1..] == ops[1..] + [op];
      RunAppend(Apply(b, ops[0], column), ops[1..], op, column);
    }
  }

  lemma OpenedBooks(column: ReversalColumn)
    ensures Run(EMPTY, OpenOps(), column) == OPENED
  {
    assert OpenOps() == [OpCreateYear(0, 365)] + [OpCreatePeriod(0, 1, 0, 31)];
    RunAppend(EMPTY, [], OpCreateYear(0, 365), column);
    assert [] + [OpCreateYear(0, 365)] == [OpCreateYear(0, 365)];
    RunAppend(EMPTY, [OpCreateYear(0, 365)], OpCreatePeriod(0, 1, 0, 31), column);
  }

  function TwoLines(debited: Id, debit: int, credited: Id, credit: int): seq<Line> {
    [Line(debited, debit, 0), Line(credited, 0, credit)]
  }

  lemma TwoLinesTotals(debited: Id, debit: int, credited: Id, credit: int)
    ensures TotalDebit(TwoLines(debited, debit, credited, credit)) == debit
    ensures TotalCredit(TwoLines(debited, debit, credited, credit)) == credit
  {
    var first, second := Line(debited, debit, 0), Line(credited, 0, credit);
    assert TwoLines(debited, debit, credited, credit) == [first] + [second];
    SumOne(DebitOf(), [first], first);
    SumOne(CreditOf(), [first], first);
    SumAppend(DebitOf(), [first], second);
    SumAppend(CreditOf(), [first], second);
  }

  function RawTwoLines(debited: Id, debit: RawAmount, credited: Id, credit: RawAmount): seq<RawLine> {
    [RawLine(debited, debit, 0.0), RawLine(credited, 0.0, credit)]
  }

  lemma RawTwoLinesTotals(debited: Id, debit: RawAmount, credited: Id, credit: RawAmount)
    ensures RawTotalDebit(RawTwoLines(debited, debit, credited, credit)) == debit
    ensures RawTotalCredit(RawTwoLines(debited, debit, credited, credit)) == credit
    ensures StoreAll(RawTwoLines(debited, debit, credited, credit))
              == TwoLines(debited, Nearest(debit), credited, Nearest(credit))
  {
    var first, second := RawLine(debited, debit, 0.0), RawLine(credited, 0.0, credit);
    assert RawTwoLines(debited, debit, credited, credit) == [first] + [second];
    RealSumOne(RawDebit(), [first], first);
    RealSumOne(RawCredit(), [first], first);
    RealSumAppend(RawDebit(), [first], second);
    RealSumAppend(RawCredit(), [first], second);
    NearestWhole(0);
  }

  lemma RawTwoLinesAccepted(debited: Id, debit: RawAmount, credited: Id, credit: RawAmount)
    ensures AcceptedLines(RawTwoLines(debited, debit, credited, credit))
            <==> Distance(debit, credit) <= TOLERANCE as real && Nearest(debit) > 0 && Nearest(credit) > 0
  {
    var raw := RawTwoLines(debited, debit, credited, credit);
    RawTwoLinesTotals(debited, debit, credited, credit);
    var stored := TwoLines(debited, Nearest(debit), credited, Nearest(credit));
    assert stored[0] in stored && stored[1] in stored && raw[0] in raw && raw[1] in raw;
    NearestWhole(0);
  }

  /** Such drafts are within reach: from empty books, any two amounts that differ by
      at most 0.01 and are not stored alike make one. */
  lemma StuckDraftReachable(debited: Id, debit: RawAmount, credited: Id, credit: RawAmount, number: JournalNumber,
                            column: ReversalColumn)
    returns (ops: seq<Op>)
    requires Nearest(debit) > 0 && Nearest(credit) > 0 && Distance(debit, credit) <= TOLERANCE as real
    requires Nearest(debit) != Nearest(credit)
    ensures StuckDraft(Run(EMPTY, ops, column), 0)
  {
    var dto := JournalDto(0, 15 * DAY, None, RawTwoLines(debited, debit, credited, credit));
    ops := OpenOps() + [OpCreate(dto, number)];
    OpenedBooks(column);
    RunAppend(EMPTY, OpenOps(), OpCreate(dto, number), column);
    RawTwoLinesTotals(debited, debit, credited, credit);
    RawTwoLinesAccepted(debited, debit, credited, credit);
    assert Create(OPENED, dto, number).Ok?;
  }

  /** A draft can be posted exactly when its stored totals agree. */
  lemma PostableIff(b: Books, i: nat)
    requires Inv(b) && i < |b.journals| && b.journals[i].status == Draft
    ensures Post(b, i).Ok? <==> b.journals[i].totalDebit == b.journals[i].totalCredit
  {
    assert JournalOk(b, i);
  }

  /** The period is open and covers the moment. */
  predicate Takes(b: Books, period: nat, at: int) {
    period < |b.periods| && b.periods[period].status == Open && Covers(b.periods[period], at)
  }

  /** A journal is created and posted exactly when its lines are accepted with equal
      stored totals, the period takes it and the business reference is new. */
  lemma CreateAndPostIff(b: Books, dto: JournalDto, number: JournalNumber)
    ensures CreateAndPost(b, dto, number).Ok?
            <==> PostableLines(dto.lines) && Takes(b, dto.period, dto.at) && ReferenceFree(b, dto.reference)
  {
  }
}
