/** The accounting services over their tables. Every method has exactly the outcome
    and effect of its specification in Books, and posts through the running balances
    and the cache of RunningBalance. */
module AccountingTables {
  import opened Common
  import opened Sums
  import opened Rounding
  import opened Books
  import opened BooksInvariant
  import opened RunningBalance

  /** The first part of `create`: the totals, then each line. */
  method CheckLines(lines: seq<RawLine>) returns (e: Option<Error>)
    ensures e == LineError(lines)
  {
    if lines == [] {
      return Some(NoLines);
    }
    var totalDebit, totalCredit := Totals(lines);
    if Distance(totalDebit, totalCredit) > TOLERANCE as real {
      return Some(Unbalanced);
    }
    for i := 0 to |lines|
      invariant FirstBadLine(lines) == FirstBadLine(lines[i..])
    {
      assert lines[i..][1..] == lines[i + 1..];
      if lines[i].debit == 0.0 && lines[i].credit == 0.0 {
        return Some(ZeroLine);
      }
      if lines[i].debit > 0.0 && lines[i].credit > 0.0 {
        return Some(TwoSidedLine);
      }
    }
    e := None;
  }

  method Totals(lines: seq<RawLine>) returns (totalDebit: real, totalCredit: real)
    ensures totalDebit == RawTotalDebit(lines) && totalCredit == RawTotalCredit(lines)
  {
    totalDebit, totalCredit := 0.0, 0.0;
    for i := 0 to |lines|
      invariant totalDebit == RawTotalDebit(lines[..i]) && totalCredit == RawTotalCredit(lines[..i])
    {
      assert lines[..i + 1][..i] == lines[..i];
      totalDebit, totalCredit := totalDebit + lines[i].debit, totalCredit + lines[i].credit;
    }
    assert lines[..|lines|] == lines;
  }

  method ReversalRequest(ghost b: Books, lines: seq<Line>, id: nat, period: nat, today: int) returns (dto: JournalDto)
    requires Inv(b) && id < |b.journals| && lines == b.journals[id].lines
    ensures dto == ReversalDto(b, id, period, today)
  {
    assert JournalOk(b, id);
    SwapAccepted(lines);
    dto := JournalDto(period, today * DAY, Some(Reference("journal_reversal", id)), Exactly(SwapAll(lines)));
  }

  lemma ReversalIsMarkable(b: Books, id: nat, period: nat, today: int, number: JournalNumber)
    requires Inv(b) && Reversible(b, id, period)
    ensures var posted := CreateAndPost(b, ReversalDto(b, id, period, today), number);
            posted.Ok? ==> id < |posted.value.journals| && Inv(MarkReversed(posted.value, id, |b.journals|))
  {
    if CreateAndPost(b, ReversalDto(b, id, period, today), number).Ok? {
      ReversalKeepsInv(b, id, period, today, number);
    }
  }

  /** A posting through the ledger, and what it means for a ledger that was in order. */
  ghost predicate Posts(gl: seq<LedgerRow>, lines: seq<Posting>, now: int, gl': seq<LedgerRow>) {
    Produces(gl, lines, now, gl') && (Orderly(gl) && InTime(gl, lines, now) ==> Orderly(gl'))
  }

  /** The postings of a journal about to be created from a request. */
  function LinePostings(dto: JournalDto, id: nat): seq<Posting> {
    PostingsOf(NewJournal(dto, JournalNumber(0, 0)), id)
  }

  class Tables {
    var years: seq<Year>
    var periods: seq<Period>
    var journals: seq<Journal>
    var ledger: seq<LedgerRow>
    var balances: map<AccountPeriod, BalanceRow>

    ghost function View(): Books
      reads this
    {
      Books(years, periods, journals, Postings(ledger))
    }

    ghost predicate Valid()
      reads this
    {
      Inv(View()) && CacheTracks(ledger, balances)
    }

    constructor ()
      ensures Valid() && View() == EMPTY && ledger == []
    {
      years, periods, journals, ledger, balances := [], [], [], [], map[];
    }

    /** `create`: the lines, then the transaction. */
    method CreateJournal(dto: JournalDto, number: JournalNumber) returns (r: Result<nat, Error>)
      requires Valid()
      modifies this`journals
      ensures Valid()
      ensures match Create(old(View()), dto, number)
              case Ok(b) => r == Ok(|old(journals)|) && View() == b
              case Err(e) => r == Err(e) && View() == old(View())
    {
      var lines := dto.lines;
      var objection := CheckLines(lines);
      if objection.Some? {
        return Err(objection.value);
      }
      if dto.period >= |periods| || periods[dto.period].status != Open {
        return Err(PeriodNotOpen);
      }
      if !Covers(periods[dto.period], dto.at) {
        return Err(DateOutsidePeriod);
      }
      if dto.reference.Some? && exists j | j in journals :: j.reference == dto.reference {
        return Err(DuplicateReference);
      }
      if !AllOneSided(StoreAll(lines)) {
        return Err(CheckViolation);
      }
      assert Create(View(), dto, number).Ok?;
      CreateKeepsInv(View(), dto, number);
      r := Ok(|journals|);
      journals := journals + [NewJournal(dto, number)];
    }

    /** `post`: the guards, the line loop, and the status update with its constraint. */
    method PostJournal(id: nat, now: int) returns (r: Result<(), Error>)
      requires Valid()
      modifies this`journals, this`ledger, this`balances
      ensures Valid()
      ensures match Post(old(View()), id)
              case Ok(b) => r.Ok? && View() == b && Posts(old(ledger), PostingsOf(old(journals)[id], id), now, ledger)
              case Err(e) => r == Err(e) && View() == old(View()) && ledger == old(ledger) && balances == old(balances)
    {
      if id >= |journals| {
        return Err(NotFound);
      }
      var j := journals[id];
      if j.status != Draft {
        return Err(NotDraft);
      }
      if j.period >= |periods| || periods[j.period].status != Open {
        return Err(PeriodNotOpen);
      }
      var gl, cache := InsertLines(ledger, balances, PostingsOf(j, id), now);
      if j.totalDebit != j.totalCredit {
        return Err(CheckViolation);
      }
      PostKeepsInv(View(), id);
      journals := journals[id := j.(status := Posted)];
      ledger, balances := gl, cache;
      assert View() == Post(old(View()), id).value;
      r := Ok(());
    }

    /** `autoPost`'s transaction: create and post, or neither. */
    method CreateAndPostJournal(dto: JournalDto, number: JournalNumber, now: int) returns (r: Result<nat, Error>)
      requires Valid()
      modifies this`journals, this`ledger, this`balances
      ensures Valid()
      ensures match CreateAndPost(old(View()), dto, number)
              case Ok(b) => r == Ok(|old(journals)|) && View() == b
                            && Posts(old(ledger), LinePostings(dto, |old(journals)|), now, ledger)
              case Err(e) => r == Err(e) && View() == old(View()) && ledger == old(ledger) && balances == old(balances)
    {
      var saved := journals;
      r := CreateJournal(dto, number);
      if r.Ok? {
        assert PostingsOf(journals[r.value], r.value) == LinePostings(dto, r.value);
        var posted := PostJournal(r.value, now);
        if posted.Err? {
          journals := saved;
          r := Err(posted.error);
        }
      }
    }

    /** `reverse`: the swapped journal is created and posted, then both rows are
        marked; a refused update of reversal_of undoes everything. */
    method ReverseJournal(id: nat, period: nat, today: int, number: JournalNumber, column: ReversalColumn, now: int)
      returns (r: Result<nat, Error>)
      requires Valid()
      modifies this`journals, this`ledger, this`balances
      ensures Valid()
      ensures match Reverse(old(View()), id, period, today, number, column)
              case Ok(b) => r == Ok(|old(journals)|) && View() == b
                            && Posts(old(ledger),
                                     LinePostings(ReversalDto(old(View()), id, period, today), |old(journals)|),
                                     now, ledger)
              case Err(e) => r == Err(e) && View() == old(View()) && ledger == old(ledger) && balances == old(balances)
    {
      if id >= |journals| {
        return Err(NotFound);
      }
      if journals[id].status != Posted {
        return Err(NotPosted);
      }
      if journals[id].reversedBy.Some? {
        return Err(AlreadyReversed);
      }
      if period >= |periods| || periods[period].status != Open {
        return Err(PeriodNotOpen);
      }
      ReverseCases(View(), id, period, today, number, column);
      var dto := ReversalRequest(View(), journals[id].lines, id, period, today);
      ReversalIsMarkable(View(), id, period, today, number);
      r := PostReversal(id, dto, number, Accepts(column, journals[id].number), now);
    }

    ghost predicate Markable(id: nat, dto: JournalDto, number: JournalNumber)
      reads this
    {
      var posted := CreateAndPost(View(), dto, number);
      posted.Ok? ==> id < |posted.value.journals| && Inv(MarkReversed(posted.value, id, |journals|))
    }

    method PostReversal(id: nat, dto: JournalDto, number: JournalNumber, accepted: bool, now: int)
      returns (r: Result<nat, Error>)
      requires Valid() && Markable(id, dto, number)
      modifies this`journals, this`ledger, this`balances
      ensures Valid()
      ensures match CreateAndPost(old(View()), dto, number)
              case Ok(b) =>
                if accepted
                then id < |b.journals| && r == Ok(|old(journals)|) && View() == MarkReversed(b, id, |old(journals)|)
                     && Posts(old(ledger), LinePostings(dto, |old(journals)|), now, ledger)
                else r == Err(InvalidReversalOf) && View() == old(View())
                     && ledger == old(ledger) && balances == old(balances)
              case Err(e) => r == Err(e) && View() == old(View()) && ledger == old(ledger) && balances == old(balances)
    {
      var savedJournals, savedLedger, savedBalances := journals, ledger, balances;
      r := CreateAndPostJournal(dto, number, now);
      if r.Ok? {
        if accepted {
          Mark(id, r.value);
        } else {
          journals, ledger, balances := savedJournals, savedLedger, savedBalances;
          r := Err(InvalidReversalOf);
        }
      }
    }

    method Mark(id: nat, reversal: nat)
      requires Valid() && id < |journals| && Inv(MarkReversed(View(), id, reversal))
      modifies this`journals
      ensures Valid() && View() == MarkReversed(old(View()), id, reversal)
    {
      journals := journals[id := journals[id].(status := Reversed, reversedBy := Some(reversal))];
    }

    method AddYear(start: int, end: int) returns (r: Result<nat, Error>)
      requires Valid()
      modifies this`years
      ensures Valid()
      ensures match CreateYear(old(View()), start, end)
              case Ok(b) => r == Ok(|old(years)|) && View() == b
              case Err(e) => r == Err(e) && View() == old(View())
      ensures r.Ok? <==> start < end
      ensures r.Ok? ==> years == old(years) + [Year(start, end, true)]
    {
      if start >= end {
        return Err(InvalidRange);
      }
      PeriodOpsKeepInv(View(), OpCreateYear(start, end), TextColumn);
      r := Ok(|years|);
      years := years + [Year(start, end, true)];
    }

    method AddPeriod(year: nat, number: int, start: int, end: int) returns (r: Result<nat, Error>)
      requires Valid()
      modifies this`periods
      ensures Valid()
      ensures match CreatePeriod(old(View()), year, number, start, end)
              case Ok(b) => r == Ok(|old(periods)|) && View() == b
              case Err(e) => r == Err(e) && View() == old(View())
      ensures r.Ok? <==> && year < |years| && years[year].open && years[year].start <= start < end <= years[year].end
                         && forall p | p in old(periods) && p.year == year ::
                              p.number != number && (end <= p.start || p.end <= start)
    {
      if start >= end {
        return Err(InvalidRange);
      }
      if year >= |years| || !years[year].open {
        return Err(NotFound);
      }
      if start < years[year].start || end > years[year].end {
        return Err(OutsideYear);
      }
      if exists p | p in periods :: p.year == year && p.number == number {
        return Err(NumberTaken);
      }
      if exists p | p in periods :: p.year == year && p.start < end && p.end > start {
        return Err(Overlap);
      }
      PeriodOpsKeepInv(View(), OpCreatePeriod(year, number, start, end), TextColumn);
      r := Ok(|periods|);
      periods := periods + [Period(year, number, start, end, Open)];
    }

    method SetPeriodStatus(period: nat, status: PeriodStatus) returns (r: Result<(), Error>)
      requires Valid()
      modifies this`periods
      ensures Valid()
      ensures match UpdatePeriodStatus(old(View()), period, status)
              case Ok(b) => r.Ok? && View() == b
              case Err(e) => r == Err(e) && View() == old(View())
      ensures r.Ok? <==> && period < |periods| && old(periods)[period].status != Locked
                         && status != Open && (old(periods)[period].status == Closed ==> status == Locked)
                         && forall j | j in journals && j.period == period :: j.status != Draft
    {
      if period >= |periods| {
        return Err(NotFound);
      }
      if periods[period].status == Locked {
        return Err(PeriodLocked);
      }
      if !AllowedTransition(periods[period].status, status) {
        return Err(InvalidTransition);
      }
      if exists j | j in journals :: j.period == period && j.status == Draft {
        return Err(HasDrafts);
      }
      PeriodOpsKeepInv(View(), OpPeriodStatus(period, status), TextColumn);
      periods := periods[period := periods[period].(status := status)];
      r := Ok(());
    }

    method CloseFiscalYear(year: nat) returns (r: Result<(), Error>)
      requires Valid()
      modifies this`years
      ensures Valid()
      ensures match CloseYear(old(View()), year)
              case Ok(b) => r.Ok? && View() == b
              case Err(e) => r == Err(e) && View() == old(View())
      ensures r.Ok? <==> && year < |years| && old(years)[year].open
                         && forall p | p in periods && p.year == year :: p.status != Open
      ensures r.Ok? ==> years == old(years)[year := old(years)[year].(open := false)]
    {
      if year >= |years| {
        return Err(NotFound);
      }
      if !years[year].open {
        return Err(YearClosed);
      }
      if exists p | p in periods :: p.year == year && p.status == Open {
        return Err(HasOpenPeriods);
      }
      PeriodOpsKeepInv(View(), OpCloseYear(year), TextColumn);
      years := years[year := years[year].(open := false)];
      r := Ok(());
    }
  }
}
