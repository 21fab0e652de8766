/** Reversing journals: when it is possible, and that it undoes them. */
module Reversals {
  import opened Common
  import opened Sums
  import opened Rounding
  import opened Books
  import opened BooksInvariant

  function NetAt(account: Id, p: nat): Posting -> int {
    (r: Posting) => if r.account == account && r.period == p then r.debit - r.credit else 0
  }

  function Net(gl: seq<Posting>, account: Id, p: nat): int { Sum(NetAt(account, p), gl) }

  function NetOn(account: Id): Posting -> int {
    (r: Posting) => if r.account == account then r.debit - r.credit else 0
  }

  lemma {:induction false} SwapNets(j: Journal, id: nat, r: Journal, rid: nat, account: Id)
    requires r.lines == SwapAll(j.lines)
    ensures Sum(NetOn(account), PostingsOf(j, id)) + Sum(NetOn(account), PostingsOf(r, rid)) == 0
    ensures forall p: nat | r.period == p ::
              Net(PostingsOf(r, rid), account, p) == Sum(NetOn(account), PostingsOf(r, rid))
    ensures forall p: nat | r.period != p :: Net(PostingsOf(r, rid), account, p) == 0
    decreases |j.lines|
  {
    var rows, back := PostingsOf(j, id), PostingsOf(r, rid);
    if j.lines != [] {
      var m := |j.lines| - 1;
      var j0, r0 := j.(lines := j.lines[..m]), r.(lines := r.lines[..m]);
      assert r0.lines == SwapAll(j0.lines);
      SwapNets(j0, id, r0, rid, account);
      assert rows == PostingsOf(j0, id) + [rows[m]] && back == PostingsOf(r0, rid) + [back[m]];
      SumAppend(NetOn(account), PostingsOf(j0, id), rows[m]);
      SumAppend(NetOn(account), PostingsOf(r0, rid), back[m]);
      forall p: nat ensures Net(back, account, p) == Net(PostingsOf(r0, rid), account, p) + NetAt(account, p)(back[m]) {
        SumAppend(NetAt(account, p), PostingsOf(r0, rid), back[m]);
      }
    }
  }

  /** What a committed reversal appends to the ledger: the swapped lines. */
  lemma ReversalAppends(b: Books, id: nat, period: nat, today: int, number: JournalNumber, column: ReversalColumn)
    returns (r: Journal)
    requires Inv(b) && Reverse(b, id, period, today, number, column).Ok?
    ensures id < |b.journals| && r.lines == SwapAll(b.journals[id].lines) && r.period == period
    ensures Reverse(b, id, period, today, number, column).value.gl == b.gl + PostingsOf(r, |b.journals|)
  {
    var dto := ReversalDto(b, id, period, today);
    ReverseShape(b, id, period, today, number, column);
    CreateAndPostShape(b, dto, number);
    r := CreateAndPost(b, dto, number).value.journals[|b.journals|];
    assert JournalOk(b, id);
    SwapAccepted(b.journals[id].lines);
    ExactlyStores(SwapAll(b.journals[id].lines));
  }

  /** Reversal is an inverse on every account: it adds to the chosen period the
      opposite of what the original posted and touches no other period. With the
      original's own period that restores the balance held before the original if
      nothing else posted there. */
  lemma ReversalIsInverse(b: Books, id: nat, period: nat, today: int, number: JournalNumber,
                          column: ReversalColumn, account: Id, p: nat)
    requires Inv(b) && Reverse(b, id, period, today, number, column).Ok?
    ensures id < |b.journals|
    ensures Net(Reverse(b, id, period, today, number, column).value.gl, account, p)
         == Net(b.gl, account, p)
            - if p == period then Sum(NetOn(account), PostingsOf(b.journals[id], id)) else 0
  {
    var r := ReversalAppends(b, id, period, today, number, column);
    NetAfterSwap(b.gl, b.journals[id], id, r, |b.journals|, account, p);
  }

  lemma NetAfterSwap(gl: seq<Posting>, j: Journal, id: nat, r: Journal, rid: nat, account: Id, p: nat)
    requires r.lines == SwapAll(j.lines)
    ensures Net(gl + PostingsOf(r, rid), account, p)
         == Net(gl, account, p) - if p == r.period then Sum(NetOn(account), PostingsOf(j, id)) else 0
  {
    SwapNets(j, id, r, rid, account);
    SumConcat(NetAt(account, p), gl, PostingsOf(r, rid));
    assert Net(gl + PostingsOf(r, rid), account, p) == Net(gl, account, p) + Net(PostingsOf(r, rid), account, p);
  }

  /** Posting a journal and reversing it into its own period, with nothing posted
      in between, leaves every balance of every period as it was. */
  lemma ReversalRestores(b0: Books, id: nat, today: int, number: JournalNumber, column: ReversalColumn,
                         account: Id, p: nat)
    requires Inv(b0) && Post(b0, id).Ok?
    requires Reverse(Post(b0, id).value, id, b0.journals[id].period, today, number, column).Ok?
    ensures Net(Reverse(Post(b0, id).value, id, b0.journals[id].period, today, number, column).value.gl, account, p)
         == Net(b0.gl, account, p)
  {
    var b := Post(b0, id).value;
    var j := b0.journals[id];
    var rows := PostingsOf(j, id);
    PostKeepsInv(b0, id);
    ReversalIsInverse(b, id, j.period, today, number, column, account, p);
    assert PostingsOf(b.journals[id], id) == rows;
    SumConcat(NetAt(account, p), b0.gl, rows);
    SwapAccepted(j.lines);
    SwapNets(j.(lines := SwapAll(j.lines)), 0, j, id, account);
    assert Net(b.gl, account, p) == Net(b0.gl, account, p) + Net(rows, account, p);
  }

  /** Exactly when a reversal commits. It demands more than posting did: that the
      stored lines balance, not only the totals stored with them. */
  lemma ReverseCommitsIff(b: Books, id: nat, period: nat, today: int, number: JournalNumber, column: ReversalColumn)
    requires Inv(b)
    ensures Reverse(b, id, period, today, number, column).Ok? <==>
            && id < |b.journals| && b.journals[id].status == Posted && Balanced(b.journals[id].lines)
            && Takes(b, period, today * DAY)
            && ReferenceFree(b, Some(Reference("journal_reversal", id)))
            && column == TextColumn
  {
    if id < |b.journals| && b.journals[id].status == Posted {
      NumberIsNotBigint(b.journals[id].number);
      assert JournalOk(b, id);
      ReversalPostsIff(b, id, period, today, number);
      if Reversible(b, id, period) {
        ReverseCases(b, id, period, today, number, column);
      }
    }
  }

  lemma ReversalPostsIff(b: Books, id: nat, period: nat, today: int, number: JournalNumber)
    requires Inv(b) && id < |b.journals|
    ensures CreateAndPost(b, ReversalDto(b, id, period, today), number).Ok?
            <==> Balanced(b.journals[id].lines) && Takes(b, period, today * DAY)
                 && ReferenceFree(b, Some(Reference("journal_reversal", id)))
  {
    assert JournalOk(b, id);
    SwapAccepted(b.journals[id].lines);
    ExactlyPostable(SwapAll(b.journals[id].lines));
    CreateAndPostIff(b, ReversalDto(b, id, period, today), number);
  }

  lemma NumberIsNotBigint(n: JournalNumber)
    ensures !ReadsAsBigint(NumberText(n))
  {
    assert NumberText(n)[0] == 'J';
    assert 'J' in NumberText(n);
  }

  /** The migrated schema declares reversal_of as BIGINT, so there no call of
      `reverse` ever commits, in any state of any run. */
  lemma ReverseNeverCommitsOnBigint(b: Books, id: nat, period: nat, today: int, number: JournalNumber)
    ensures Reverse(b, id, period, today, number, BigintColumn).Err?
  {
    if id < |b.journals| {
      NumberIsNotBigint(b.journals[id].number);
    }
  }

  lemma ApplyKeepsReversed(b: Books, op: Op, column: ReversalColumn, i: nat)
    requires i < |b.journals| && b.journals[i].status == Reversed
    ensures i < |Apply(b, op, column).journals| && Apply(b, op, column).journals[i] == b.journals[i]
  {
    ApplyEvolves(b, op, column, i);
  }

  /** A reversed journal is never reversed again, whatever runs in between. */
  lemma {:induction false} ReversedOnce(b: Books, ops: seq<Op>, column: ReversalColumn, i: nat,
                                        period: nat, today: int, number: JournalNumber)
    requires i < |b.journals| && b.journals[i].status == Reversed
    ensures var b' := Run(b, ops, column);
            i < |b'.journals| && b'.journals[i] == b.journals[i]
            && Reverse(b', i, period, today, number, column) == Err(NotPosted)
    decreases ops
  {
    if ops != [] {
      ApplyKeepsReversed(b, ops[0], column, i);
      ReversedOnce(Apply(b, ops[0], column), ops[1..], column, i, period, today, number);
    }
  }
}
