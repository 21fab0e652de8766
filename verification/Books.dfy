/** The accounting books as a value: fiscal years, periods, journals and the
    general ledger, with one function for each service transaction. The row locks
    of the services serialize these transactions, so each is one step here. */
module Books {
  import opened Common
  import opened Sums
  import opened Filters
  import opened Rounding

  datatype PeriodStatus = Open | Closed | Locked

  datatype JournalStatus = Draft | Posted | Reversed

  datatype Year = Year(start: int, end: int, open: bool)

  datatype Period = Period(year: nat, number: int, start: int, end: int, status: PeriodStatus)

  /** A stored line. */
  datatype Line = Line(account: Id, debit: int, credit: int)

  /** A line as requested, before the columns round it. */
  datatype RawLine = RawLine(account: Id, debit: RawAmount, credit: RawAmount)

  /** Dates are days, as DATE columns hold them; moments count seconds, and a day
      begins at its midnight. */
  const DAY := 86400

  /** (reference_type, reference_id), both present. */
  datatype Reference = Reference(kind: string, id: nat)

  /** A number drawn by DocumentNumberService.generate for type JE. */
  datatype JournalNumber = JournalNumber(year: nat, counter: nat)

  /** `totalDebit` and `totalCredit` are stored on their own, rounded from the request's totals. */
  datatype Journal = Journal(number: JournalNumber, period: nat, date: int, reference: Option<Reference>,
                             status: JournalStatus, totalDebit: int, totalCredit: int, lines: seq<Line>,
                             reversedBy: Option<nat>)

  datatype Posting = Posting(account: Id, period: nat, journal: nat, debit: int, credit: int)

  /** Tables in insertion order; a row's id is its index. */
  datatype Books = Books(years: seq<Year>, periods: seq<Period>, journals: seq<Journal>, gl: seq<Posting>)

  datatype JournalDto = JournalDto(period: nat, at: int, reference: Option<Reference>, lines: seq<RawLine>)

  datatype Error =
    | NoLines | Unbalanced | ZeroLine | TwoSidedLine | PeriodNotOpen | DateOutsidePeriod
    | DuplicateReference | CheckViolation | NotFound | NotDraft | NotPosted | AlreadyReversed
    | InvalidReversalOf | PeriodLocked | InvalidTransition | HasDrafts | YearClosed | HasOpenPeriods
    | InvalidRange | OutsideYear | NumberTaken | Overlap

  // ------------------------------------------------------------------
  // Lines
  // ------------------------------------------------------------------

  function DebitOf(): Line -> int { (l: Line) => l.debit }

  function CreditOf(): Line -> int { (l: Line) => l.credit }

  function TotalDebit(lines: seq<Line>): int { Sum(DebitOf(), lines) }

  function TotalCredit(lines: seq<Line>): int { Sum(CreditOf(), lines) }

  /** The table constraint chk_line_debit_credit. */
  predicate OneSided(l: Line) {
    (l.debit > 0 && l.credit == 0) || (l.credit > 0 && l.debit == 0)
  }

  predicate AllOneSided(lines: seq<Line>) { forall l | l in lines :: OneSided(l) }

  /** The stored lines agree, which no constraint demands. */
  predicate Balanced(lines: seq<Line>) { TotalDebit(lines) == TotalCredit(lines) }

  function RawDebit(): RawLine -> real { (l: RawLine) => l.debit }

  function RawCredit(): RawLine -> real { (l: RawLine) => l.credit }

  function RawTotalDebit(lines: seq<RawLine>): real { RealSum(RawDebit(), lines) }

  function RawTotalCredit(lines: seq<RawLine>): real { RealSum(RawCredit(), lines) }

  function Store(l: RawLine): Line { Line(l.account, Nearest(l.debit), Nearest(l.credit)) }

  function StoreAll(lines: seq<RawLine>): (s: seq<Line>)
    ensures |s| == |lines| && forall i | 0 <= i < |lines| :: s[i] == Store(lines[i])
  {
    seq(|lines|, i requires 0 <= i < |lines| => Store(lines[i]))
  }

  /** A request that carries stored values. */
  function Exactly(lines: seq<Line>): (raw: seq<RawLine>)
    requires AllOneSided(lines)
    ensures |raw| == |lines|
    ensures forall i | 0 <= i < |lines| ::
              raw[i].account == lines[i].account
              && raw[i].debit == lines[i].debit as real
              && raw[i].credit == lines[i].credit as real
  {
    seq(|lines|, i requires 0 <= i < |lines| =>
      assert lines[i] in lines; RawLine(lines[i].account, lines[i].debit as real, lines[i].credit as real))
  }

  /** The first objection of `create`'s own checks, if any. */
  function LineError(lines: seq<RawLine>): Option<Error> {
    if lines == [] then Some(NoLines)
    else if Distance(RawTotalDebit(lines), RawTotalCredit(lines)) > TOLERANCE as real then Some(Unbalanced)
    else FirstBadLine(lines)
  }

  function FirstBadLine(lines: seq<RawLine>): (e: Option<Error>)
    ensures e.None? <==> forall l | l in lines ::
                           (l.debit > 0.0 && l.credit == 0.0) || (l.credit > 0.0 && l.debit == 0.0)
    ensures e.Some? ==> e.value == ZeroLine || e.value == TwoSidedLine
  {
    if lines == [] then None
    else if lines[0].debit == 0.0 && lines[0].credit == 0.0 then Some(ZeroLine)
    else if lines[0].debit > 0.0 && lines[0].credit > 0.0 then Some(TwoSidedLine)
    else FirstBadLine(lines[1..])
  }

  /** What `create` and the line constraint accept between them. */
  predicate AcceptedLines(lines: seq<RawLine>) {
    LineError(lines).None? && AllOneSided(StoreAll(lines))
  }

  /** What the balance constraint demands besides: the stored totals agree. */
  predicate PostableLines(lines: seq<RawLine>) {
    AcceptedLines(lines) && Nearest(RawTotalDebit(lines)) == Nearest(RawTotalCredit(lines))
  }

  function Swap(l: Line): Line { Line(l.account, l.credit, l.debit) }

  function SwapAll(lines: seq<Line>): (s: seq<Line>)
    ensures |s| == |lines| && forall i | 0 <= i < |lines| :: s[i] == Swap(lines[i])
  {
    seq(|lines|, i requires 0 <= i < |lines| => Swap(lines[i]))
  }

  // ------------------------------------------------------------------
  // Journals: create, post, reverse, autoPost
  // ------------------------------------------------------------------

  predicate ReferenceFree(b: Books, r: Option<Reference>) {
    r.None? || forall j | j in b.journals :: j.reference != r
  }

  function Create(b: Books, dto: JournalDto, number: JournalNumber): Result<Books, Error> {
    var e := LineError(dto.lines);
    if e.Some? then Err(e.value)
    else if dto.period >= |b.periods| || b.periods[dto.period].status != Open then Err(PeriodNotOpen)
    else if !Covers(b.periods[dto.period], dto.at) then Err(DateOutsidePeriod)
    else if !ReferenceFree(b, dto.reference) then Err(DuplicateReference)
    else if !AllOneSided(StoreAll(dto.lines)) then Err(CheckViolation)
    else Ok(b.(journals := b.journals + [NewJournal(dto, number)]))
  }

  /** The comparison of `create`: a moment after midnight of the last day is too late. */
  predicate Covers(p: Period, at: int) { p.start * DAY <= at <= p.end * DAY }

  function NewJournal(dto: JournalDto, number: JournalNumber): Journal {
    Journal(number, dto.period, dto.at / DAY, dto.reference, Draft,
            Nearest(RawTotalDebit(dto.lines)), Nearest(RawTotalCredit(dto.lines)), StoreAll(dto.lines), None)
  }

  function PostingOf(l: Line, period: nat, id: nat): Posting {
    Posting(l.account, period, id, l.debit, l.credit)
  }

  function PostingsOf(j: Journal, id: nat): (rows: seq<Posting>)
    ensures |rows| == |j.lines| && forall i | 0 <= i < |rows| :: rows[i] == PostingOf(j.lines[i], j.period, id)
  {
    seq(|j.lines|, i requires 0 <= i < |j.lines| => PostingOf(j.lines[i], j.period, id))
  }

  /** Posting ends with the status update, which the constraint
      chk_journal_balanced refuses unless the totals are equal. */
  function Post(b: Books, id: nat): Result<Books, Error> {
    if id >= |b.journals| then Err(NotFound)
    else if b.journals[id].status != Draft then Err(NotDraft)
    else if b.journals[id].period >= |b.periods| || b.periods[b.journals[id].period].status != Open then
      Err(PeriodNotOpen)
    else if b.journals[id].totalDebit != b.journals[id].totalCredit then Err(CheckViolation)
    else Ok(b.(journals := b.journals[id := b.journals[id].(status := Posted)],
               gl := b.gl + PostingsOf(b.journals[id], id)))
  }

  /** The column journal_entries.reversal_of: the service's row type calls it a
      string, the migration declares it BIGINT. */
  datatype ReversalColumn = TextColumn | BigintColumn

  function Pad(n: nat): string {
    if n < 10 then "0000" + Decimal(n)
    else if n < 100 then "000" + Decimal(n)
    else if n < 1000 then "00" + Decimal(n)
    else if n < 10000 then "0" + Decimal(n)
    else Decimal(n)
  }

  function NumberText(n: JournalNumber): string {
    "JE-" + Decimal(n.year) + "-" + Pad(n.counter)
  }

  /** An optional sign and then digits. */
  predicate ReadsAsBigint(s: string) {
    var digits := if s != "" && (s[0] == '-' || s[0] == '+') then s[1..] else s;
    digits != "" && AllDigits(digits)
  }

  predicate Accepts(c: ReversalColumn, n: JournalNumber) {
    c.TextColumn? || ReadsAsBigint(NumberText(n))
  }

  /** The reversal is dated at midnight of the current day. Its lines are the stored
      ones; a journal has no others than one-sided lines. */
  function ReversalDto(b: Books, id: nat, period: nat, today: int): JournalDto
    requires id < |b.journals|
  {
    JournalDto(period, today * DAY, Some(Reference("journal_reversal", id)),
               if AllOneSided(SwapAll(b.journals[id].lines)) then Exactly(SwapAll(b.journals[id].lines)) else [])
  }

  function Reverse(b: Books, id: nat, period: nat, today: int, number: JournalNumber,
                   column: ReversalColumn): Result<Books, Error> {
    if id >= |b.journals| then Err(NotFound)
    else if b.journals[id].status != Posted then Err(NotPosted)
    else if b.journals[id].reversedBy.Some? then Err(AlreadyReversed)
    else if period >= |b.periods| || b.periods[period].status != Open then Err(PeriodNotOpen)
    else
      match CreateAndPost(b, ReversalDto(b, id, period, today), number)
      case Err(e) => Err(e)
      case Ok(b2) =>
        if !Accepts(column, b.journals[id].number) then Err(InvalidReversalOf)
        else if id >= |b2.journals| then Err(NotFound)
        else
          var reversed := b2.journals[id].(status := Reversed, reversedBy := Some(|b.journals|));
          Ok(b2.(journals := b2.journals[id := reversed]))
  }

  /** The transaction of autoPost: both steps or neither. */
  function CreateAndPost(b: Books, dto: JournalDto, number: JournalNumber): Result<Books, Error> {
    match Create(b, dto, number)
    case Err(e) => Err(e)
    case Ok(b1) => Post(b1, |b.journals|)
  }

  // ------------------------------------------------------------------
  // Fiscal years and periods
  // ------------------------------------------------------------------

  function CreateYear(b: Books, start: int, end: int): Result<Books, Error> {
    if start >= end then Err(InvalidRange)
    else Ok(b.(years := b.years + [Year(start, end, true)]))
  }

  predicate Overlaps(p: Period, start: int, end: int) { p.start < end && p.end > start }

  function CreatePeriod(b: Books, year: nat, number: int, start: int, end: int): Result<Books, Error> {
    if start >= end then Err(InvalidRange)
    else if year >= |b.years| || !b.years[year].open then Err(NotFound)
    else if start < b.years[year].start || end > b.years[year].end then Err(OutsideYear)
    else if exists p | p in b.periods :: p.year == year && p.number == number then Err(NumberTaken)
    else if exists p | p in b.periods :: p.year == year && Overlaps(p, start, end) then Err(Overlap)
    else Ok(b.(periods := b.periods + [Period(year, number, start, end, Open)]))
  }

  predicate AllowedTransition(from: PeriodStatus, to: PeriodStatus) {
    (from == Open && (to == Closed || to == Locked)) || (from == Closed && to == Locked)
  }

  predicate HasDraft(b: Books, period: nat) {
    exists j | j in b.journals :: j.period == period && j.status == Draft
  }

  function UpdatePeriodStatus(b: Books, period: nat, status: PeriodStatus): Result<Books, Error> {
    if period >= |b.periods| then Err(NotFound)
    else if b.periods[period].status == Locked then Err(PeriodLocked)
    else if !AllowedTransition(b.periods[period].status, status) then Err(InvalidTransition)
    else if HasDraft(b, period) then Err(HasDrafts)
    else Ok(b.(periods := b.periods[period := b.periods[period].(status := status)]))
  }

  function CloseYear(b: Books, year: nat): Result<Books, Error> {
    if year >= |b.years| then Err(NotFound)
    else if !b.years[year].open then Err(YearClosed)
    else if exists p | p in b.periods :: p.year == year && p.status == Open then Err(HasOpenPeriods)
    else Ok(b.(years := b.years[year := b.years[year].(open := false)]))
  }

  // ------------------------------------------------------------------
  // Runs
  // ------------------------------------------------------------------

  datatype Op =
    | OpCreate(dto: JournalDto, number: JournalNumber)
    | OpPost(id: nat)
    | OpReverse(id: nat, period: nat, today: int, number: JournalNumber)
    | OpAutoPost(dto: JournalDto, number: JournalNumber)
    | OpCreateYear(start: int, end: int)
    | OpCreatePeriod(year: nat, periodNumber: int, start: int, end: int)
    | OpPeriodStatus(period: nat, status: PeriodStatus)
    | OpCloseYear(year: nat)

  function Outcome(b: Books, op: Op, column: ReversalColumn): Result<Books, Error> {
    match op
    case OpCreate(dto, number) => Create(b, dto, number)
    case OpPost(id) => Post(b, id)
    case OpReverse(id, period, today, number) => Reverse(b, id, period, today, number, column)
    case OpAutoPost(dto, number) => CreateAndPost(b, dto, number)
    case OpCreateYear(start, end) => CreateYear(b, start, end)
    case OpCreatePeriod(year, number, start, end) => CreatePeriod(b, year, number, start, end)
    case OpPeriodStatus(period, status) => UpdatePeriodStatus(b, period, status)
    case OpCloseYear(year) => CloseYear(b, year)
  }

  /** A failed transaction changes nothing. */
  function Apply(b: Books, op: Op, column: ReversalColumn): Books {
    var r := Outcome(b, op, column);
    if r.Ok? then r.value else b
  }

  function Run(b: Books, ops: seq<Op>, column: ReversalColumn): Books
    decreases ops
  {
    if ops == [] then b else Run(Apply(b, ops[0], column), ops[1..], column)
  }

  const EMPTY := Books([], [], [], [])
}
