/** When the stored balances stay right over a run of postings: not only that the
    order of times suffices, but that nothing else does. */
module BalanceOrder {
  import opened Common
  import opened Sums
  import opened Books
  import opened RunningBalance

  // ------------------------------------------------------------------
  // A run as one list of insertions
  // ------------------------------------------------------------------

  datatype Entry = Entry(posting: Posting, now: int)

  /** `gl` may result from inserting these entries one by one. */
  ghost predicate Laid(es: seq<Entry>, gl: seq<LedgerRow>) {
    if es == [] then gl == []
    else gl != [] && Laid(Front(es), Front(gl)) && Inserted(Front(gl), Last(es).posting, Last(es).now, Last(gl))
  }

  /** Whatever rows the queries return, every balance is right. */
  ghost predicate AllRight(es: seq<Entry>) { forall gl | Laid(es, gl) :: RowsAgree(gl) }

  function EntryKey(e: Entry): AccountPeriod { PostingKey(e.posting) }

  predicate Moving(es: seq<Entry>) { forall e | e in es :: Delta(e.posting) != 0 }

  lemma {:induction false} LaidLength(es: seq<Entry>, gl: seq<LedgerRow>)
    requires Laid(es, gl)
    ensures |gl| == |es|
  {
    if es != [] {
      LaidLength(Front(es), Front(gl));
    }
  }

  lemma LaidNext(es: seq<Entry>, gl: seq<LedgerRow>, e: Entry, row: LedgerRow)
    requires Laid(es, gl) && Inserted(gl, e.posting, e.now, row)
    ensures Laid(es + [e], gl + [row])
  {
    assert Front(es + [e]) == es && Front(gl + [row]) == gl;
  }

  lemma LaidSplit(es: seq<Entry>, e: Entry, gl: seq<LedgerRow>)
    requires Laid(es + [e], gl)
    ensures gl != [] && Laid(es, Front(gl)) && Inserted(Front(gl), e.posting, e.now, Last(gl))
  {
    assert Front(es + [e]) == es;
  }

  lemma SomeRow(gl: seq<LedgerRow>, e: Entry) returns (row: LedgerRow)
    ensures Inserted(gl, e.posting, e.now, row)
  {
    var read := 0;
    if LastRow(gl, EntryKey(e)).Some? {
      var i := SomeLatest(gl, EntryKey(e));
      read := gl[i].balance;
    }
    row := LedgerRow(e.posting, read + Delta(e.posting), e.now);
  }

  lemma PrefixAllRight(es: seq<Entry>, e: Entry)
    requires AllRight(es + [e])
    ensures AllRight(es)
  {
    forall gl | Laid(es, gl) ensures RowsAgree(gl) {
      var row := SomeRow(gl, e);
      LaidNext(es, gl, e, row);
      assert RowsAgree(gl + [row]) && Front(gl + [row]) == gl;
    }
  }

  /** A row of another account does not change what may be read. */
  lemma ReadSkips(gl: seq<LedgerRow>, row: LedgerRow, k: AccountPeriod, balance: int)
    requires KeyOf(row) != k && MayRead(gl, k, balance)
    ensures MayRead(gl + [row], k, balance)
  {
    assert Front(gl + [row]) == gl;
    if LastRow(gl, k).Some? {
      var i: nat :| LatestByTime(gl, k, i) && gl[i].balance == balance;
      assert LatestByTime(gl + [row], k, i);
    }
  }

  /** Leaving out the last entry of another account leaves a right run right. */
  lemma SkipOther(es: seq<Entry>, y: Entry, x: Entry)
    requires AllRight(es + [y] + [x]) && EntryKey(y) != EntryKey(x)
    ensures AllRight(es + [x])
  {
    forall gl | Laid(es + [x], gl) ensures RowsAgree(gl) {
      LaidSplit(es, x, gl);
      var before, rx := Front(gl), Last(gl);
      var ry := SomeRow(before, y);
      LaidNext(es, before, y, ry);
      ReadSkips(before, ry, EntryKey(x), rx.balance - x.posting.debit + x.posting.credit);
      LaidNext(es + [y], before + [ry], x, rx);
      assert gl == before + [rx];
      DropOther(before, ry, rx);
    }
  }

  lemma DropOther(gl: seq<LedgerRow>, other: LedgerRow, row: LedgerRow)
    requires RowsAgree(gl + [other] + [row]) && KeyOf(other) != KeyOf(row)
    ensures RowsAgree(gl + [row])
  {
    assert Front(gl + [other] + [row]) == gl + [other] && Front(gl + [other]) == gl && Front(gl + [row]) == gl;
    AppendTotals(gl + [other], row, KeyOf(row));
    AppendTotals(gl, other, KeyOf(row));
    AppendTotals(gl, row, KeyOf(row));
  }

  /** Continuing from the row before the last is right only if the last moved nothing. */
  lemma StaleRead(gl: seq<LedgerRow>, row: LedgerRow, next: LedgerRow)
    requires RowsAgree(gl + [row] + [next]) && KeyOf(row) == KeyOf(next)
    requires next.balance == LastBalance(gl, KeyOf(row)) + Delta(next.posting)
    ensures Delta(row.posting) == 0
  {
    assert Front(gl + [row] + [next]) == gl + [row] && Front(gl + [row]) == gl;
    AppendTotals(gl + [row], next, KeyOf(row));
    AppendTotals(gl, row, KeyOf(row));
    LastBalanceAgrees(gl, KeyOf(row));
  }

  // ------------------------------------------------------------------
  // Right balances force increasing times
  // ------------------------------------------------------------------

  predicate KeyTimesIncrease(gl: seq<LedgerRow>, k: AccountPeriod) {
    forall i, j | 0 <= i < j < |gl| && KeyOf(gl[i]) == k && KeyOf(gl[j]) == k :: gl[i].createdAt < gl[j].createdAt
  }

  lemma StaleIsReadable(gl: seq<LedgerRow>, row: LedgerRow, j: nat)
    requires KeyTimesIncrease(gl, KeyOf(row)) && LastRow(gl, KeyOf(row)) == Some(j)
    requires gl[j].createdAt >= row.createdAt
    ensures MayRead(gl + [row], KeyOf(row), gl[j].balance)
  {
    assert Front(gl + [row]) == gl && LastRow(gl + [row], KeyOf(row)).Some?;
    assert (gl + [row])[j] == gl[j];
    assert LatestByTime(gl + [row], KeyOf(row), j);
  }

  lemma LaterAppends(gl: seq<LedgerRow>, row: LedgerRow)
    requires KeyTimesIncrease(gl, KeyOf(row))
    requires LastRow(gl, KeyOf(row)).Some? ==> gl[LastRow(gl, KeyOf(row)).value].createdAt < row.createdAt
    ensures KeyTimesIncrease(gl + [row], KeyOf(row))
  {
    forall i | 0 <= i < |gl| && KeyOf(gl[i]) == KeyOf(row) ensures gl[i].createdAt < row.createdAt {
      assert i <= LastRow(gl, KeyOf(row)).value;
    }
  }

  /** A row that is not later than the account's previous one would be overlooked by
      the next read, and it moved the balance. */
  lemma LastIsLater(es: seq<Entry>, y: Entry, x: Entry, gl: seq<LedgerRow>)
    requires AllRight(es + [y] + [x]) && Laid(es + [y], gl)
    requires EntryKey(x) == EntryKey(y) && Delta(y.posting) != 0
    requires gl != [] && KeyTimesIncrease(Front(gl), EntryKey(y))
    ensures KeyTimesIncrease(gl, EntryKey(y))
  {
    LaidSplit(es, y, gl);
    var before, row, k := Front(gl), Last(gl), EntryKey(y);
    assert gl == before + [row];
    if LastRow(before, k).Some? && before[LastRow(before, k).value].createdAt >= row.createdAt {
      var j := LastRow(before, k).value;
      StaleIsReadable(before, row, j);
      var next := LedgerRow(x.posting, before[j].balance + Delta(x.posting), x.now);
      LaidNext(es + [y], gl, x, next);
      StaleRead(before, row, next);
    }
    LaterAppends(before, row);
  }

  lemma {:induction false} TimesForced(es: seq<Entry>, x: Entry, gl: seq<LedgerRow>)
    requires AllRight(es) && AllRight(es + [x]) && Laid(es, gl) && Moving(es)
    ensures KeyTimesIncrease(gl, EntryKey(x))
    decreases es
  {
    if es != [] {
      var front, y := Front(es), Last(es);
      assert es == front + [y];
      assert Moving(front);
      PrefixAllRight(front, y);
      if EntryKey(y) == EntryKey(x) {
        TimesForced(front, y, Front(gl));
        LastIsLater(front, y, x, gl);
      } else {
        SkipOther(front, y, x);
        TimesForced(front, x, Front(gl));
        assert gl == Front(gl) + [Last(gl)];
      }
    }
  }

  // ------------------------------------------------------------------
  // Back to whole postings
  // ------------------------------------------------------------------

  function Entries(lines: seq<Posting>, now: int): (es: seq<Entry>)
    ensures |es| == |lines| && forall i | 0 <= i < |lines| :: es[i] == Entry(lines[i], now)
  {
    seq(|lines|, i requires 0 <= i < |lines| => Entry(lines[i], now))
  }

  function Flat(batches: seq<Batch>): seq<Entry> {
    if batches == [] then [] else Flat(Front(batches)) + Entries(Last(batches).lines, Last(batches).now)
  }

  lemma {:induction false} ProducedIsLaid(es: seq<Entry>, gl: seq<LedgerRow>, lines: seq<Posting>, now: int,
                                          gl': seq<LedgerRow>)
    requires Laid(es, gl) && Produces(gl, lines, now, gl')
    ensures Laid(es + Entries(lines, now), gl')
    decreases lines
  {
    if lines == [] {
      assert es + Entries(lines, now) == es;
    } else {
      ProducedIsLaid(es, gl, Front(lines), now, Front(gl'));
      LaidNext(es + Entries(Front(lines), now), Front(gl'), Entry(Last(lines), now), Last(gl'));
      assert es + Entries(lines, now) == es + Entries(Front(lines), now) + [Entry(Last(lines), now)];
      assert gl' == Front(gl') + [Last(gl')];
    }
  }

  lemma {:induction false} LaidIsProduced(es: seq<Entry>, lines: seq<Posting>, now: int, gl': seq<LedgerRow>)
    returns (gl: seq<LedgerRow>)
    requires Laid(es + Entries(lines, now), gl')
    ensures Laid(es, gl) && Produces(gl, lines, now, gl')
    decreases lines
  {
    if lines == [] {
      assert es + Entries(lines, now) == es;
      gl := gl';
    } else {
      assert es + Entries(lines, now) == es + Entries(Front(lines), now) + [Entry(Last(lines), now)];
      LaidSplit(es + Entries(Front(lines), now), Entry(Last(lines), now), gl');
      gl := LaidIsProduced(es, Front(lines), now, Front(gl'));
    }
  }

  lemma {:induction false} HistoryIsLaid(ledgers: seq<seq<LedgerRow>>, batches: seq<Batch>)
    requires History(ledgers, batches)
    ensures Laid(Flat(batches), ledgers[|batches|])
    decreases batches
  {
    if batches != [] {
      HistoryPrefix(ledgers, batches);
      HistoryIsLaid(Front(ledgers), Front(batches));
      ProducedIsLaid(Flat(Front(batches)), ledgers[|batches| - 1], Last(batches).lines, Last(batches).now,
          ledgers[|batches|]);
    }
  }

  lemma {:induction false} LaidIsHistory(batches: seq<Batch>, gl: seq<LedgerRow>) returns (ledgers: seq<seq<LedgerRow>>)
    requires Laid(Flat(batches), gl)
    ensures History(ledgers, batches) && ledgers[|batches|] == gl
    decreases batches
  {
    if batches == [] {
      ledgers := [[]];
    } else {
      var before := LaidIsProduced(Flat(Front(batches)), Last(batches).lines, Last(batches).now, gl);
      var front := LaidIsHistory(Front(batches), before);
      ledgers := front + [gl];
      assert forall i | 0 <= i < |batches| - 1 :: Front(batches)[i] == batches[i];
    }
  }

  /** One more posting with a single line. */
  function Followed(batches: seq<Batch>, p: Posting, now: int): seq<Batch> { batches + [Batch([p], now)] }

  /** However the queries resolve, the run and any one further posting leave every
      balance right. */
  ghost predicate StaysRight(batches: seq<Batch>) {
    forall p, now, ledgers | History(ledgers, Followed(batches, p, now)) :: RowsAgree(ledgers[|batches| + 1])
  }

  lemma FlatFollowed(batches: seq<Batch>, p: Posting, now: int)
    ensures Flat(Followed(batches, p, now)) == Flat(batches) + [Entry(p, now)]
  {
    assert Front(Followed(batches, p, now)) == batches;
    assert Entries([p], now) == [Entry(p, now)];
  }

  lemma StaysRightEntries(batches: seq<Batch>, p: Posting, now: int)
    requires StaysRight(batches)
    ensures AllRight(Flat(batches) + [Entry(p, now)])
  {
    FlatFollowed(batches, p, now);
    forall gl | Laid(Flat(batches) + [Entry(p, now)], gl) ensures RowsAgree(gl) {
      var ledgers := LaidIsHistory(Followed(batches, p, now), gl);
    }
  }

  predicate MovingLines(batches: seq<Batch>) {
    forall i, p | 0 <= i < |batches| && p in batches[i].lines :: Delta(p) != 0
  }

  lemma {:induction false} FlatMoves(batches: seq<Batch>)
    requires MovingLines(batches)
    ensures Moving(Flat(batches))
    decreases batches
  {
    if batches != [] {
      assert forall i | 0 <= i < |batches| - 1 :: Front(batches)[i] == batches[i];
      FlatMoves(Front(batches));
      var es := Entries(Last(batches).lines, Last(batches).now);
      forall e | e in es ensures Delta(e.posting) != 0 {
        var i :| 0 <= i < |es| && es[i] == e;
        assert Last(batches).lines[i] in batches[|batches| - 1].lines;
      }
    }
  }

  lemma RightForcesOrder(batches: seq<Batch>)
    requires MovingLines(batches) && StaysRight(batches)
    ensures BegunInOrder(batches)
  {
    var ledgers := SomeHistory(batches);
    var gl := ledgers[|batches|];
    HistoryIsLaid(ledgers, batches);
    FlatMoves(batches);
    forall i, j | 0 <= i < j < |gl| && KeyOf(gl[i]) == KeyOf(gl[j]) ensures gl[i].createdAt < gl[j].createdAt {
      var x := Entry(gl[i].posting, 0);
      StaysRightEntries(batches, x.posting, 0);
      PrefixAllRight(Flat(batches), x);
      TimesForced(Flat(batches), x, gl);
      assert KeyTimesIncrease(gl, KeyOf(gl[i]));
    }
    BegunInOrderKeeps(ledgers, batches);
  }

  lemma OrderKeepsRight(batches: seq<Batch>, p: Posting, now: int, ledgers: seq<seq<LedgerRow>>)
    requires BegunInOrder(batches) && History(ledgers, Followed(batches, p, now))
    ensures RowsAgree(ledgers[|batches| + 1])
  {
    var all, n := Followed(batches, p, now), |batches|;
    HistoryPrefix(ledgers, all);
    assert Front(all) == batches;
    BegunInOrderKeeps(Front(ledgers), batches);
    var gl, gl' := ledgers[n], ledgers[n + 1];
    assert Produces(gl, [p], now, gl');
    ProducesOne(gl, p, now, gl');
    var row := Last(gl');
    OrderlyRead(gl, PostingKey(p), row.balance - p.debit + p.credit);
    AppendTotals(gl, row, PostingKey(p));
    assert gl' == gl + [row];
  }

  /** For lines that move their accounts, as every posted line does: all balances of
      the run and of any one further posting are right, however the queries resolve,
      exactly when journals name each account once and those that share one commit in
      the order in which they began. */
  lemma RunStaysRightIff(batches: seq<Batch>)
    requires MovingLines(batches)
    ensures StaysRight(batches) <==> BegunInOrder(batches)
  {
    if StaysRight(batches) {
      RightForcesOrder(batches);
    }
    if BegunInOrder(batches) {
      forall p, now, ledgers | History(ledgers, Followed(batches, p, now)) ensures RowsAgree(ledgers[|batches| + 1]) {
        OrderKeepsRight(batches, p, now, ledgers);
      }
    }
  }
}
