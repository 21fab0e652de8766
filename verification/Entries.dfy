/** The journals that other services post inside their own transactions: when they
    are accepted, and what they do to an account. */
module Entries {
  import opened Common
  import opened Sums
  import opened Rounding
  import opened Books
  import opened BooksInvariant
  import opened Reversals

  /** getActivePeriodForDate: an open period of an open year whose days include that
      of the moment. */
  predicate Active(b: Books, period: nat, at: int) {
    && period < |b.periods| && b.periods[period].status == Open
    && b.periods[period].start <= at / DAY <= b.periods[period].end
    && b.periods[period].year < |b.years| && b.years[b.periods[period].year].open
  }

  predicate HasActive(b: Books, at: int) {
    exists p: nat | p < |b.periods| :: Active(b, p, at)
  }

  /** The row that the lookup returns, any of them if there are several. */
  predicate Found(b: Books, at: int, found: Option<nat>) {
    if found.Some? then Active(b, found.value, at) else !HasActive(b, at)
  }

  /** The lookup goes by days, `create` by moments: an active period refuses exactly
      what comes after midnight on its last day. */
  lemma ActiveTakesIff(b: Books, period: nat, at: int)
    requires Active(b, period, at)
    ensures Takes(b, period, at) <==> !(at / DAY == b.periods[period].end && at % DAY > 0)
  {
  }

  /** On the last day of the only period, after midnight, nothing can be posted. */
  lemma LastDayRefuses(at: int, reference: Option<Reference>, lines: seq<RawLine>, number: JournalNumber)
    requires at / DAY == 31 && at % DAY > 0
    ensures Active(OPENED, 0, at) && CreateAndPost(OPENED, JournalDto(0, at, reference, lines), number).Err?
  {
    ActiveTakesIff(OPENED, 0, at);
    CreateAndPostIff(OPENED, JournalDto(0, at, reference, lines), number);
  }

  function TwoLegs(debited: Id, credited: Id, amount: RawAmount, period: nat, at: int,
                   reference: Option<Reference>): JournalDto {
    JournalDto(period, at, reference, RawTwoLines(debited, amount, credited, amount))
  }

  /** Both legs round alike, so such a journal balances unless it is stored as zero. */
  lemma TwoLegsPostable(debited: Id, credited: Id, amount: RawAmount)
    ensures PostableLines(RawTwoLines(debited, amount, credited, amount)) <==> Nearest(amount) > 0
    ensures Balanced(StoreAll(RawTwoLines(debited, amount, credited, amount)))
  {
    RawTwoLinesTotals(debited, amount, credited, amount);
    RawTwoLinesAccepted(debited, amount, credited, amount);
    TwoLinesTotals(debited, Nearest(amount), credited, Nearest(amount));
  }

  /** autoPost without a period, called inside another transaction: whichever active
      period the lookup returns, it posts exactly when that period takes the moment
      and the reference is new. */
  method PostInside(b: Books, at: int, found: Option<nat>, reference: Option<Reference>, lines: seq<RawLine>,
                    number: JournalNumber)
    returns (r: Option<Books>)
    requires PostableLines(lines) && Found(b, at, found)
    ensures r.Some? <==> PostsIn(b, at, found) && ReferenceFree(b, reference)
    ensures r.Some? ==> CreateAndPost(b, JournalDto(found.value, at, reference, lines), number) == Ok(r.value)
  {
    if found.None? {
      return None;
    }
    var dto := JournalDto(found.value, at, reference, lines);
    CreateAndPostIff(b, dto, number);
    var posted := CreateAndPost(b, dto, number);
    r := if posted.Ok? then Some(posted.value) else None;
  }

  /** A period was found, and not only its days but its moments include this one. */
  predicate PostsIn(b: Books, at: int, found: Option<nat>) {
    found.Some? && Takes(b, found.value, at)
  }

  /** Exactly when the lookup and the later check agree on success. */
  lemma PostsInIff(b: Books, at: int, found: Option<nat>)
    requires Found(b, at, found)
    ensures PostsIn(b, at, found)
            <==> found.Some? && !(at / DAY == b.periods[found.value].end && at % DAY > 0)
  {
    if found.Some? {
      ActiveTakesIff(b, found.value, at);
    }
  }

  // ------------------------------------------------------------------
  // What a posted journal does to an account
  // ------------------------------------------------------------------

  function LineNet(account: Id): Line -> int {
    (l: Line) => if l.account == account then l.debit - l.credit else 0
  }

  /** Debits less credits of an account over all periods. */
  function AccountNet(b: Books, account: Id): int { Sum(NetOn(account), b.gl) }

  lemma {:induction false} PostingsNet(j: Journal, id: nat, lines: seq<Line>, account: Id)
    requires j.lines == lines
    ensures Sum(NetOn(account), PostingsOf(j, id)) == Sum(LineNet(account), lines)
    decreases lines
  {
    if lines != [] {
      var m := |lines| - 1;
      var front := j.(lines := lines[..m]);
      PostingsNet(front, id, lines[..m], account);
      assert PostingsOf(j, id) == PostingsOf(front, id) + [PostingOf(lines[m], j.period, id)];
      SumAppend(NetOn(account), PostingsOf(front, id), PostingOf(lines[m], j.period, id));
    }
  }

  lemma CreateAndPostMoves(b: Books, dto: JournalDto, number: JournalNumber, account: Id)
    requires CreateAndPost(b, dto, number).Ok?
    ensures AccountNet(CreateAndPost(b, dto, number).value, account)
         == AccountNet(b, account) + Sum(LineNet(account), StoreAll(dto.lines))
  {
    CreateAndPostShape(b, dto, number);
    var b' := CreateAndPost(b, dto, number).value;
    var j := b'.journals[|b.journals|];
    PostingsNet(j, |b.journals|, j.lines, account);
    SumConcat(NetOn(account), b.gl, PostingsOf(j, |b.journals|));
  }

  lemma TwoLinesNet(debited: Id, credited: Id, amount: int, account: Id)
    ensures Sum(LineNet(account), TwoLines(debited, amount, credited, amount))
         == (if account == debited then amount else 0) - (if account == credited then amount else 0)
  {
    var first, second := Line(debited, amount, 0), Line(credited, 0, amount);
    assert TwoLines(debited, amount, credited, amount) == [first] + [second];
    SumOne(LineNet(account), [first], first);
    SumAppend(LineNet(account), [first], second);
  }

  /** A two-legged entry moves the account it debits up, the one it credits down, and
      no other, by the amount as stored. */
  lemma TwoLegsMove(b: Books, debited: Id, credited: Id, amount: RawAmount, period: nat, at: int,
                    reference: Option<Reference>, number: JournalNumber, account: Id)
    requires CreateAndPost(b, TwoLegs(debited, credited, amount, period, at, reference), number).Ok?
    ensures AccountNet(CreateAndPost(b, TwoLegs(debited, credited, amount, period, at, reference), number).value,
                       account)
         == AccountNet(b, account) + (if account == debited then Nearest(amount) else 0)
                                   - (if account == credited then Nearest(amount) else 0)
  {
    CreateAndPostMoves(b, TwoLegs(debited, credited, amount, period, at, reference), number, account);
    RawTwoLinesTotals(debited, amount, credited, amount);
    TwoLinesNet(debited, credited, Nearest(amount), account);
  }
}
