/** The general ledger's stored running balances and the account_balances cache.
    `post` reads an account's previous balance from the row with the greatest
    created_at. This module says which ledgers that query can produce, and exactly
    when all of them are right. */
module RunningBalance {
  import opened Common
  import opened Sums
  import opened Books

  datatype AccountPeriod = AccountPeriod(account: Id, period: nat)

  /** `createdAt` defaults to NOW(), which PostgreSQL fixes at transaction start. */
  datatype LedgerRow = LedgerRow(posting: Posting, balance: int, createdAt: int)

  datatype BalanceRow = BalanceRow(opening: int, totalDebit: int, totalCredit: int, closing: int)

  function PostingKey(p: Posting): AccountPeriod { AccountPeriod(p.account, p.period) }

  function KeyOf(r: LedgerRow): AccountPeriod { PostingKey(r.posting) }

  function Postings(gl: seq<LedgerRow>): (ps: seq<Posting>)
    ensures |ps| == |gl| && forall i | 0 <= i < |gl| :: ps[i] == gl[i].posting
  {
    seq(|gl|, i requires 0 <= i < |gl| => gl[i].posting)
  }

  function DebitAt(k: AccountPeriod): LedgerRow -> int {
    (r: LedgerRow) => if KeyOf(r) == k then r.posting.debit else 0
  }

  function CreditAt(k: AccountPeriod): LedgerRow -> int {
    (r: LedgerRow) => if KeyOf(r) == k then r.posting.credit else 0
  }

  /** The balance that history gives an account in a period. */
  function Balance(gl: seq<LedgerRow>, k: AccountPeriod): int {
    Sum(DebitAt(k), gl) - Sum(CreditAt(k), gl)
  }

  function Front<T>(s: seq<T>): seq<T>
    requires s != []
  {
    s[..|s| - 1]
  }

  function Last<T>(s: seq<T>): T
    requires s != []
  {
    s[|s| - 1]
  }

  /** Every running balance agrees with the history up to its row. */
  ghost predicate RowsAgree(gl: seq<LedgerRow>) {
    gl == [] || (RowsAgree(Front(gl)) && Last(gl).balance == Balance(gl, KeyOf(Last(gl))))
  }

  lemma AppendTotals(gl: seq<LedgerRow>, row: LedgerRow, k: AccountPeriod)
    ensures Sum(DebitAt(k), gl + [row]) == Sum(DebitAt(k), gl) + DebitAt(k)(row)
    ensures Sum(CreditAt(k), gl + [row]) == Sum(CreditAt(k), gl) + CreditAt(k)(row)
  {
    SumAppend(DebitAt(k), gl, row);
    SumAppend(CreditAt(k), gl, row);
  }

  // ------------------------------------------------------------------
  // The last inserted row
  // ------------------------------------------------------------------

  /** The last inserted row of an account and period. */
  function LastRow(gl: seq<LedgerRow>, k: AccountPeriod): (r: Option<nat>)
    ensures r.Some? ==> r.value < |gl| && KeyOf(gl[r.value]) == k
                        && forall i | r.value < i < |gl| :: KeyOf(gl[i]) != k
    ensures r.None? ==> forall i | 0 <= i < |gl| :: KeyOf(gl[i]) != k
  {
    if gl == [] then None
    else if KeyOf(Last(gl)) == k then Some(|gl| - 1)
    else LastRow(Front(gl), k)
  }

  function LastBalance(gl: seq<LedgerRow>, k: AccountPeriod): int {
    var r := LastRow(gl, k);
    if r.Some? then gl[r.value].balance else 0
  }

  lemma {:induction false} LastBalanceAgrees(gl: seq<LedgerRow>, k: AccountPeriod)
    requires RowsAgree(gl)
    ensures LastBalance(gl, k) == Balance(gl, k)
  {
    if gl != [] && KeyOf(Last(gl)) != k {
      LastBalanceAgrees(Front(gl), k);
    }
  }

  /** Every row was computed from the row inserted last before it on its key. */
  ghost predicate ReadsLast(gl: seq<LedgerRow>) {
    gl == [] || (ReadsLast(Front(gl))
                 && Last(gl).balance
                     == LastBalance(Front(gl), KeyOf(Last(gl))) + Last(gl).posting.debit - Last(gl).posting.credit)
  }

  /** A ledger's balances are right exactly when every read got the last inserted
      row's balance, whatever journals it holds. */
  lemma {:induction false} AgreeIffReadsLast(gl: seq<LedgerRow>)
    ensures RowsAgree(gl) <==> ReadsLast(gl)
  {
    if gl != [] {
      AgreeIffReadsLast(Front(gl));
      assert gl == Front(gl) + [Last(gl)];
      AppendTotals(Front(gl), Last(gl), KeyOf(Last(gl)));
      if RowsAgree(Front(gl)) {
        LastBalanceAgrees(Front(gl), KeyOf(Last(gl)));
      }
    }
  }

  // ------------------------------------------------------------------
  // The read by created_at
  // ------------------------------------------------------------------

  /** A row that ORDER BY created_at DESC may return first. */
  predicate LatestByTime(gl: seq<LedgerRow>, k: AccountPeriod, i: nat) {
    && i < |gl| && KeyOf(gl[i]) == k
    && forall j | 0 <= j < |gl| && KeyOf(gl[j]) == k :: gl[j].createdAt <= gl[i].createdAt
  }

  /** What the query may return; no row counts as zero. */
  ghost predicate MayRead(gl: seq<LedgerRow>, k: AccountPeriod, balance: int) {
    if LastRow(gl, k).None? then balance == 0
    else exists i: nat :: LatestByTime(gl, k, i) && gl[i].balance == balance
  }

  lemma {:induction false} SomeLatest(gl: seq<LedgerRow>, k: AccountPeriod) returns (i: nat)
    requires LastRow(gl, k).Some?
    ensures LatestByTime(gl, k, i)
  {
    if LastRow(Front(gl), k).None? {
      i := |gl| - 1;
      assert forall j | 0 <= j < |gl| - 1 :: KeyOf(Front(gl)[j]) == KeyOf(gl[j]);
    } else {
      i := SomeLatest(Front(gl), k);
      assert forall j | 0 <= j < |gl| - 1 :: Front(gl)[j] == gl[j];
      if KeyOf(Last(gl)) == k && Last(gl).createdAt > gl[i].createdAt {
        i := |gl| - 1;
      }
    }
  }

  /** The balance stored in a row is the history up to it. */
  lemma {:induction false} RowBalance(gl: seq<LedgerRow>, i: nat)
    requires RowsAgree(gl) && i < |gl|
    ensures gl[i].balance == Balance(gl, KeyOf(gl[i])) - Balance(gl[i + 1..], KeyOf(gl[i]))
  {
    var k := KeyOf(gl[i]);
    if i < |gl| - 1 {
      RowBalance(Front(gl), i);
      assert gl == Front(gl) + [Last(gl)] && gl[i + 1..] == Front(gl)[i + 1..] + [Last(gl)];
      AppendTotals(Front(gl), Last(gl), k);
      AppendTotals(Front(gl)[i + 1..], Last(gl), k);
    }
  }

  /** The exact condition on one read: every row that may be returned is followed
      by rows of its account that cancel out. */
  lemma ReadIsRightIff(gl: seq<LedgerRow>, k: AccountPeriod)
    requires RowsAgree(gl)
    ensures (forall b | MayRead(gl, k, b) :: b == Balance(gl, k))
            <==> forall i: nat | LatestByTime(gl, k, i) :: Balance(gl[i + 1..], k) == 0
  {
    forall i: nat | LatestByTime(gl, k, i)
      ensures MayRead(gl, k, gl[i].balance) && gl[i].balance == Balance(gl, k) - Balance(gl[i + 1..], k)
    {
      RowBalance(gl, i);
    }
    if LastRow(gl, k).None? {
      LastBalanceAgrees(gl, k);
    }
  }

  // ------------------------------------------------------------------
  // The ledgers one posting may produce
  // ------------------------------------------------------------------

  ghost predicate Inserted(gl: seq<LedgerRow>, p: Posting, now: int, row: LedgerRow) {
    && row.posting == p && row.createdAt == now
    && MayRead(gl, PostingKey(p), row.balance - p.debit + p.credit)
  }

  /** `gl'` may result from `gl` when a transaction begun at `now` posts these lines. */
  ghost predicate Produces(gl: seq<LedgerRow>, lines: seq<Posting>, now: int, gl': seq<LedgerRow>) {
    if lines == [] then gl' == gl
    else gl' != [] && Produces(gl, Front(lines), now, Front(gl')) && Inserted(Front(gl'), Last(lines), now, Last(gl'))
  }

  lemma {:induction false} ProducedRows(gl: seq<LedgerRow>, lines: seq<Posting>, now: int, gl': seq<LedgerRow>)
    requires Produces(gl, lines, now, gl')
    ensures |gl'| == |gl| + |lines| && gl'[..|gl|] == gl
    ensures forall i | |gl| <= i < |gl'| :: gl'[i].posting == lines[i - |gl|] && gl'[i].createdAt == now
    decreases lines
  {
    if lines != [] {
      ProducedRows(gl, Front(lines), now, Front(gl'));
      assert forall i | 0 <= i < |gl'| - 1 :: gl'[i] == Front(gl')[i];
    }
  }

  lemma {:induction false} SomeProduced(gl: seq<LedgerRow>, lines: seq<Posting>, now: int) returns (gl': seq<LedgerRow>)
    ensures Produces(gl, lines, now, gl')
    decreases lines
  {
    if lines == [] {
      gl' := gl;
    } else {
      var before := SomeProduced(gl, Front(lines), now);
      var p := Last(lines);
      var read := 0;
      if LastRow(before, PostingKey(p)).Some? {
        var i := SomeLatest(before, PostingKey(p));
        read := before[i].balance;
      }
      gl' := before + [LedgerRow(p, read + p.debit - p.credit, now)];
      assert Front(gl') == before;
    }
  }

  /** On each account and period later rows have later times. */
  predicate TimesIncrease(gl: seq<LedgerRow>) {
    forall i, j | 0 <= i < j < |gl| && KeyOf(gl[i]) == KeyOf(gl[j]) :: gl[i].createdAt < gl[j].createdAt
  }

  ghost predicate Orderly(gl: seq<LedgerRow>) { RowsAgree(gl) && TimesIncrease(gl) }

  predicate DistinctKeys(lines: seq<Posting>) {
    forall i, j | 0 <= i < j < |lines| :: PostingKey(lines[i]) != PostingKey(lines[j])
  }

  /** The condition on a journal and its transaction: one line per account, and a
      start after every row of these accounts. */
  predicate InTime(gl: seq<LedgerRow>, lines: seq<Posting>, now: int) {
    && DistinctKeys(lines)
    && forall i, j | 0 <= i < |gl| && 0 <= j < |lines| && KeyOf(gl[i]) == PostingKey(lines[j]) :: gl[i].createdAt < now
  }

  /** In an orderly ledger the query has only the last inserted row to return. */
  lemma OrderlyRead(gl: seq<LedgerRow>, k: AccountPeriod, balance: int)
    requires Orderly(gl) && MayRead(gl, k, balance)
    ensures balance == Balance(gl, k)
  {
    LastBalanceAgrees(gl, k);
    if LastRow(gl, k).Some? {
      var last := LastRow(gl, k).value;
      var i: nat :| LatestByTime(gl, k, i) && gl[i].balance == balance;
      assert forall j | 0 <= j < last && KeyOf(gl[j]) == k :: gl[j].createdAt < gl[last].createdAt;
    }
  }

  lemma {:induction false} PostKeepsOrder(gl: seq<LedgerRow>, lines: seq<Posting>, now: int, gl': seq<LedgerRow>)
    requires Orderly(gl) && InTime(gl, lines, now) && Produces(gl, lines, now, gl')
    ensures Orderly(gl')
    decreases lines
  {
    if lines != [] {
      var before, row := Front(gl'), Last(gl');
      PostKeepsOrder(gl, Front(lines), now, before);
      ProducedRows(gl, lines, now, gl');
      OrderlyRead(before, KeyOf(row), row.balance - row.posting.debit + row.posting.credit);
      assert gl' == before + [row];
      AppendTotals(before, row, KeyOf(row));
      LastRowIsLater(gl, lines, now, gl');
    }
  }

  lemma LastRowIsLater(gl: seq<LedgerRow>, lines: seq<Posting>, now: int, gl': seq<LedgerRow>)
    requires InTime(gl, lines, now) && Produces(gl, lines, now, gl') && lines != []
    requires TimesIncrease(Front(gl'))
    ensures TimesIncrease(gl')
  {
    ProducedRows(gl, lines, now, gl');
    var n := |gl'| - 1;
    assert forall i | |gl| <= i < n :: KeyOf(gl'[i]) == PostingKey(lines[i - |gl|]);
    forall i | 0 <= i < n && KeyOf(gl'[i]) == KeyOf(gl'[n]) ensures gl'[i].createdAt < gl'[n].createdAt {
      assert i < |gl| && gl'[i] == gl[i];
    }
    forall i, j | 0 <= i < j < n && KeyOf(gl'[i]) == KeyOf(gl'[j]) ensures gl'[i].createdAt < gl'[j].createdAt {
      assert Front(gl')[i] == gl'[i] && Front(gl')[j] == gl'[j];
    }
  }

  lemma OrderForcesInTime(gl: seq<LedgerRow>, lines: seq<Posting>, now: int, gl': seq<LedgerRow>)
    requires Produces(gl, lines, now, gl') && TimesIncrease(gl')
    ensures InTime(gl, lines, now)
  {
    ProducedRows(gl, lines, now, gl');
    forall i, j | 0 <= i < j < |lines| ensures PostingKey(lines[i]) != PostingKey(lines[j]) {
      var a, b := |gl| + i, |gl| + j;
      assert gl'[a].posting == lines[a - |gl|] && gl'[b].posting == lines[b - |gl|];
    }
    forall i, j | 0 <= i < |gl| && 0 <= j < |lines| && KeyOf(gl[i]) == PostingKey(lines[j])
      ensures gl[i].createdAt < now
    {
      var b := |gl| + j;
      assert gl'[i] == gl[i] && gl'[b].posting == lines[b - |gl|];
    }
  }

  /** Whatever rows the query returns, a posting leaves an orderly ledger orderly
      exactly when its journal names each account once and its transaction began
      after every row of these accounts. */
  lemma PostKeepsOrderIff(gl: seq<LedgerRow>, lines: seq<Posting>, now: int)
    requires Orderly(gl)
    ensures (forall gl' | Produces(gl, lines, now, gl') :: Orderly(gl')) <==> InTime(gl, lines, now)
  {
    if forall gl' | Produces(gl, lines, now, gl') :: Orderly(gl') {
      var gl' := SomeProduced(gl, lines, now);
      OrderForcesInTime(gl, lines, now, gl');
    }
    if InTime(gl, lines, now) {
      forall gl' | Produces(gl, lines, now, gl') ensures Orderly(gl') {
        PostKeepsOrder(gl, lines, now, gl');
      }
    }
  }

  // ------------------------------------------------------------------
  // Runs of postings
  // ------------------------------------------------------------------

  /** The lines of one posting transaction and the time it began. */
  datatype Batch = Batch(lines: seq<Posting>, now: int)

  ghost predicate History(ledgers: seq<seq<LedgerRow>>, batches: seq<Batch>) {
    && |ledgers| == |batches| + 1 && ledgers[0] == []
    && forall i | 0 <= i < |batches| :: Produces(ledgers[i], batches[i].lines, batches[i].now, ledgers[i + 1])
  }

  /** Two journals that touch a common account and period. */
  predicate Meets(a: Batch, b: Batch) {
    exists p, q | p in a.lines && q in b.lines :: PostingKey(p) == PostingKey(q)
  }

  /** Journals name each account once, and journals that share one were posted in
      the order in which their transactions began. */
  predicate BegunInOrder(batches: seq<Batch>) {
    && (forall i | 0 <= i < |batches| :: DistinctKeys(batches[i].lines))
    && forall i, j | 0 <= i < j < |batches| && Meets(batches[i], batches[j]) :: batches[i].now < batches[j].now
  }

  ghost predicate FromBatch(batches: seq<Batch>, r: LedgerRow) {
    exists j | 0 <= j < |batches| :: r.posting in batches[j].lines && r.createdAt == batches[j].now
  }

  ghost predicate HasRow(gl: seq<LedgerRow>, p: Posting, now: int) {
    exists r | r in gl :: r.posting == p && r.createdAt == now
  }

  lemma HistoryPrefix(ledgers: seq<seq<LedgerRow>>, batches: seq<Batch>)
    requires History(ledgers, batches) && batches != []
    ensures History(Front(ledgers), Front(batches)) && Front(ledgers)[|batches| - 1] == ledgers[|batches| - 1]
    ensures Produces(ledgers[|batches| - 1], Last(batches).lines, Last(batches).now, ledgers[|batches|])
  {
  }

  lemma {:induction false} HistoryRows(ledgers: seq<seq<LedgerRow>>, batches: seq<Batch>)
    requires History(ledgers, batches)
    ensures forall r | r in ledgers[|batches|] :: FromBatch(batches, r)
    ensures forall j, p | 0 <= j < |batches| && p in batches[j].lines :: HasRow(ledgers[|batches|], p, batches[j].now)
    decreases batches
  {
    if batches != [] {
      var n := |batches| - 1;
      HistoryPrefix(ledgers, batches);
      HistoryRows(Front(ledgers), Front(batches));
      var gl, gl', last := ledgers[n], ledgers[n + 1], batches[n];
      ProducedRows(gl, last.lines, last.now, gl');
      forall r | r in gl' ensures FromBatch(batches, r) {
        var i :| 0 <= i < |gl'| && gl'[i] == r;
        if i < |gl| {
          assert gl'[..|gl|][i] == r;
          assert r in gl && FromBatch(Front(batches), r);
          var j :| 0 <= j < n && r.posting in Front(batches)[j].lines && r.createdAt == Front(batches)[j].now;
          assert batches[j] == Front(batches)[j];
        } else {
          assert r.posting == last.lines[i - |gl|];
        }
      }
      forall j, p | 0 <= j < |batches| && p in batches[j].lines ensures HasRow(gl', p, batches[j].now) {
        BatchRow(gl, gl', batches, j, p);
      }
    }
  }

  lemma BatchRow(gl: seq<LedgerRow>, gl': seq<LedgerRow>, batches: seq<Batch>, j: nat, p: Posting)
    requires j < |batches| && p in batches[j].lines
    requires Produces(gl, Last(batches).lines, Last(batches).now, gl')
    requires j < |batches| - 1 ==> HasRow(gl, p, batches[j].now)
    ensures HasRow(gl', p, batches[j].now)
  {
    ProducedRows(gl, Last(batches).lines, Last(batches).now, gl');
    if j < |batches| - 1 {
      var r :| r in gl && r.posting == p && r.createdAt == batches[j].now;
      assert r in gl'[..|gl|];
    } else {
      var i :| 0 <= i < |batches[j].lines| && batches[j].lines[i] == p;
      var a := |gl| + i;
      assert gl'[a].posting == batches[j].lines[a - |gl|] && gl'[a] in gl';
    }
  }

  /** The last batch began after every earlier one that shares an account with it. */
  predicate BegunLast(batches: seq<Batch>)
    requires batches != []
  {
    && DistinctKeys(Last(batches).lines)
    && forall i | 0 <= i < |batches| - 1 && Meets(batches[i], Last(batches)) :: batches[i].now < Last(batches).now
  }

  lemma InTimeIsBegunLast(ledgers: seq<seq<LedgerRow>>, batches: seq<Batch>)
    requires History(ledgers, batches) && batches != []
    requires InTime(ledgers[|batches| - 1], Last(batches).lines, Last(batches).now)
    ensures BegunLast(batches)
  {
    var n := |batches| - 1;
    var gl, last := ledgers[n], batches[n];
    HistoryPrefix(ledgers, batches);
    HistoryRows(Front(ledgers), Front(batches));
    forall i | 0 <= i < n && Meets(batches[i], last) ensures batches[i].now < last.now {
      var p, q :| p in batches[i].lines && q in last.lines && PostingKey(p) == PostingKey(q);
      assert p in Front(batches)[i].lines && HasRow(gl, p, batches[i].now);
      var r :| r in gl && r.posting == p && r.createdAt == batches[i].now;
      var a :| 0 <= a < |gl| && gl[a] == r;
      var b :| 0 <= b < |last.lines| && last.lines[b] == q;
      assert KeyOf(gl[a]) == PostingKey(last.lines[b]);
    }
  }

  lemma BegunLastIsInTime(ledgers: seq<seq<LedgerRow>>, batches: seq<Batch>)
    requires History(ledgers, batches) && batches != [] && BegunLast(batches)
    ensures InTime(ledgers[|batches| - 1], Last(batches).lines, Last(batches).now)
  {
    var n := |batches| - 1;
    var gl, last := ledgers[n], batches[n];
    HistoryPrefix(ledgers, batches);
    HistoryRows(Front(ledgers), Front(batches));
    forall a, b | 0 <= a < |gl| && 0 <= b < |last.lines| && KeyOf(gl[a]) == PostingKey(last.lines[b])
      ensures gl[a].createdAt < last.now
    {
      assert gl[a] in gl && FromBatch(Front(batches), gl[a]);
      var i :| 0 <= i < n && gl[a].posting in Front(batches)[i].lines && gl[a].createdAt == Front(batches)[i].now;
      assert last.lines[b] in last.lines && Meets(batches[i], last);
    }
  }

  lemma {:induction false} BegunInOrderKeeps(ledgers: seq<seq<LedgerRow>>, batches: seq<Batch>)
    requires History(ledgers, batches)
    ensures BegunInOrder(batches) ==> Orderly(ledgers[|batches|])
    ensures TimesIncrease(ledgers[|batches|]) ==> BegunInOrder(batches)
    decreases batches
  {
    if batches != [] {
      var n := |batches| - 1;
      HistoryPrefix(ledgers, batches);
      BegunInOrderKeeps(Front(ledgers), Front(batches));
      BegunInOrderLast(batches);
      if BegunInOrder(batches) {
        BegunLastIsInTime(ledgers, batches);
        PostKeepsOrder(ledgers[n], batches[n].lines, batches[n].now, ledgers[n + 1]);
      }
      if TimesIncrease(ledgers[n + 1]) {
        OrderForcesInTime(ledgers[n], batches[n].lines, batches[n].now, ledgers[n + 1]);
        InTimeIsBegunLast(ledgers, batches);
        ProducedRows(ledgers[n], batches[n].lines, batches[n].now, ledgers[n + 1]);
        assert forall i | 0 <= i < |ledgers[n]| :: ledgers[n][i] == ledgers[n + 1][i];
      }
    }
  }

  lemma BegunInOrderLast(batches: seq<Batch>)
    requires batches != []
    ensures BegunInOrder(batches) <==> BegunInOrder(Front(batches)) && BegunLast(batches)
  {
    assert forall i | 0 <= i < |batches| - 1 :: Front(batches)[i] == batches[i];
  }

  lemma {:induction false} SomeHistory(batches: seq<Batch>) returns (ledgers: seq<seq<LedgerRow>>)
    ensures History(ledgers, batches)
    decreases batches
  {
    if batches == [] {
      ledgers := [[]];
    } else {
      var before := SomeHistory(Front(batches));
      var gl := SomeProduced(Last(before), Last(batches).lines, Last(batches).now);
      ledgers := before + [gl];
      assert forall i | 0 <= i < |batches| - 1 :: Front(batches)[i] == batches[i];
    }
  }

  /** Over a whole run of postings, in the order in which they commit: every
      resolution of every read leaves all balances right and the times increasing,
      exactly when journals name each account once and journals sharing an account
      commit in the order in which their transactions began. */
  lemma RunKeepsOrderIff(batches: seq<Batch>)
    ensures (forall ledgers | History(ledgers, batches) :: Orderly(ledgers[|batches|])) <==> BegunInOrder(batches)
  {
    if forall ledgers | History(ledgers, batches) :: Orderly(ledgers[|batches|]) {
      var ledgers := SomeHistory(batches);
      BegunInOrderKeeps(ledgers, batches);
    }
    if BegunInOrder(batches) {
      forall ledgers | History(ledgers, batches) ensures Orderly(ledgers[|batches|]) {
        BegunInOrderKeeps(ledgers, batches);
      }
    }
  }

  // ------------------------------------------------------------------
  // Two ways to miss the condition
  // ------------------------------------------------------------------

  function Delta(p: Posting): int { p.debit - p.credit }

  predicate OneAccount(p: Posting, q: Posting, r: Posting) { PostingKey(p) == PostingKey(q) == PostingKey(r) }

  lemma ProducesOne(gl: seq<LedgerRow>, p: Posting, now: int, gl': seq<LedgerRow>)
    ensures Produces(gl, [p], now, gl') <==> gl' != [] && Front(gl') == gl && Inserted(gl, p, now, Last(gl'))
  {
    assert Front([p]) == [];
  }

  lemma FirstRowAgrees(p: Posting, now: int)
    ensures RowsAgree([LedgerRow(p, Delta(p), now)])
    ensures Balance([LedgerRow(p, Delta(p), now)], PostingKey(p)) == Delta(p)
  {
    var row := LedgerRow(p, Delta(p), now);
    SumOne(DebitAt(PostingKey(p)), [row], row);
    SumOne(CreditAt(PostingKey(p)), [row], row);
    assert Front([row]) == [];
  }

  lemma FirstRow(p: Posting, now: int, gl: seq<LedgerRow>)
    ensures Produces([], [p], now, gl) <==> gl == [LedgerRow(p, Delta(p), now)]
  {
    ProducesOne([], p, now, gl);
    if gl != [] && Front(gl) == [] {
      assert gl == [Last(gl)];
    }
  }

  /** A second row on the key of a one-row ledger: there is one row to read. */
  lemma SecondRow(p: Posting, t: int, q: Posting, u: int)
    requires PostingKey(p) == PostingKey(q)
    ensures var first, second := LedgerRow(p, Delta(p), t), LedgerRow(q, Delta(p) + Delta(q), u);
            && Inserted([first], q, u, second)
            && RowsAgree([first, second])
            && Balance([first, second], PostingKey(p)) == Delta(p) + Delta(q)
            && forall row | Inserted([first], q, u, row) :: row == second
  {
    var k := PostingKey(p);
    var first, second := LedgerRow(p, Delta(p), t), LedgerRow(q, Delta(p) + Delta(q), u);
    FirstRowAgrees(p, t);
    assert LatestByTime([first], k, 0);
    assert [first, second] == [first] + [second] && Front([first, second]) == [first];
    AppendTotals([first], second, k);
  }

  /** A read of the first row's balance, when there are two, spoils the third. */
  lemma ThirdRowWrong(p: Posting, t: int, q: Posting, u: int, r: Posting, row: LedgerRow)
    requires OneAccount(p, q, r) && q.debit != q.credit
    requires row.posting == r && row.balance == Delta(p) + Delta(r)
    ensures !RowsAgree([LedgerRow(p, Delta(p), t), LedgerRow(q, Delta(p) + Delta(q), u)] + [row])
  {
    var two := [LedgerRow(p, Delta(p), t), LedgerRow(q, Delta(p) + Delta(q), u)];
    SecondRow(p, t, q, u);
    AppendTotals(two, row, PostingKey(p));
    assert Front(two + [row]) == two;
  }

  lemma ProducesTwo(p: Posting, q: Posting, now: int)
    requires PostingKey(p) == PostingKey(q)
    ensures Produces([], [p, q], now, [LedgerRow(p, Delta(p), now), LedgerRow(q, Delta(p) + Delta(q), now)])
  {
    var first, second := LedgerRow(p, Delta(p), now), LedgerRow(q, Delta(p) + Delta(q), now);
    FirstRow(p, now, [first]);
    SecondRow(p, now, q, now);
    assert Front([p, q]) == [p] && Front([first, second]) == [first];
  }

  /** One journal with two lines on an account gives both rows one time. The query
      of the next posting, however much later, may then return the first of them. */
  lemma TieMisreads(p: Posting, q: Posting, r: Posting, t: int, u: int) returns (ledgers: seq<seq<LedgerRow>>)
    requires OneAccount(p, q, r) && q.debit != q.credit && t < u
    ensures History(ledgers, [Batch([p, q], t), Batch([r], u)])
    ensures RowsAgree(ledgers[1]) && !RowsAgree(ledgers[2])
  {
    var two := [LedgerRow(p, Delta(p), t), LedgerRow(q, Delta(p) + Delta(q), t)];
    var row := LedgerRow(r, Delta(p) + Delta(r), u);
    ProducesTwo(p, q, t);
    SecondRow(p, t, q, t);
    assert LatestByTime(two, PostingKey(r), 0);
    assert Inserted(two, r, u, row);
    ProducesOne(two, r, u, two + [row]);
    ThirdRowWrong(p, t, q, t, r, row);
    ledgers := [[], two, two + [row]];
  }

  /** A transaction that began earlier, waited for the period's lock and inserts
      later leaves its row behind: without any tie and with one line per journal,
      every query of the next posting reads past it. */
  lemma LateInsertMisreads(p: Posting, q: Posting, r: Posting, t: int, u: int, w: int, ledgers: seq<seq<LedgerRow>>)
    requires OneAccount(p, q, r) && q.debit != q.credit && t < u
    requires History(ledgers, [Batch([p], u), Batch([q], t), Batch([r], w)])
    ensures RowsAgree(ledgers[2]) && !RowsAgree(ledgers[3])
  {
    var batches := [Batch([p], u), Batch([q], t), Batch([r], w)];
    assert Produces(ledgers[0], batches[0].lines, u, ledgers[1]);
    assert Produces(ledgers[1], batches[1].lines, t, ledgers[2]);
    assert Produces(ledgers[2], batches[2].lines, w, ledgers[3]);
    var two := [LedgerRow(p, Delta(p), u), LedgerRow(q, Delta(p) + Delta(q), t)];
    FirstRow(p, u, ledgers[1]);
    SecondRow(p, u, q, t);
    ProducesOne(ledgers[1], q, t, ledgers[2]);
    assert ledgers[2] == two;
    ProducesOne(two, r, w, ledgers[3]);
    var row := Last(ledgers[3]);
    assert ledgers[3] == two + [row];
    assert forall i: nat | LatestByTime(two, PostingKey(r), i) :: i == 0;
    ThirdRowWrong(p, u, q, t, r, row);
  }

  // ------------------------------------------------------------------
  // The cache
  // ------------------------------------------------------------------

  /** The cached row of an account and period; a missing row stands for zeros. */
  function Cached(cache: map<AccountPeriod, BalanceRow>, k: AccountPeriod): BalanceRow {
    if k in cache then cache[k] else BalanceRow(0, 0, 0, 0)
  }

  /** Whatever the reads returned: the cached totals are those of the ledger, and
      the closing balance is the one stored in the last inserted row. */
  ghost predicate CacheTracks(gl: seq<LedgerRow>, cache: map<AccountPeriod, BalanceRow>) {
    forall k: AccountPeriod ::
      Cached(cache, k) == BalanceRow(0, Sum(DebitAt(k), gl), Sum(CreditAt(k), gl), LastBalance(gl, k))
  }

  /** INSERT ... ON CONFLICT DO UPDATE of post. */
  function Upsert(cache: map<AccountPeriod, BalanceRow>, p: Posting, balance: int): map<AccountPeriod, BalanceRow> {
    var k := PostingKey(p);
    cache[k := if k in cache
               then BalanceRow(cache[k].opening, cache[k].totalDebit + p.debit,
                               cache[k].totalCredit + p.credit, balance)
               else BalanceRow(0, p.debit, p.credit, balance)]
  }

  lemma UpsertTracks(gl: seq<LedgerRow>, cache: map<AccountPeriod, BalanceRow>, row: LedgerRow)
    requires CacheTracks(gl, cache)
    ensures CacheTracks(gl + [row], Upsert(cache, row.posting, row.balance))
  {
    var cache' := Upsert(cache, row.posting, row.balance);
    forall x: AccountPeriod
      ensures Cached(cache', x)
           == BalanceRow(0, Sum(DebitAt(x), gl + [row]), Sum(CreditAt(x), gl + [row]), LastBalance(gl + [row], x))
    {
      AppendTotals(gl, row, x);
      assert Front(gl + [row]) == gl;
      assert Cached(cache, x) == BalanceRow(0, Sum(DebitAt(x), gl), Sum(CreditAt(x), gl), LastBalance(gl, x));
    }
  }

  /** A tracking cache is right for an account exactly when its last ledger row is:
      then the closing balance is total debit less total credit. */
  lemma CacheMeaning(gl: seq<LedgerRow>, cache: map<AccountPeriod, BalanceRow>, k: AccountPeriod)
    requires CacheTracks(gl, cache)
    ensures var c := Cached(cache, k);
            && c.totalDebit == Sum(DebitAt(k), gl) && c.totalCredit == Sum(CreditAt(k), gl)
            && c.closing == LastBalance(gl, k)
            && (RowsAgree(gl) ==> c.closing == c.totalDebit - c.totalCredit)
  {
    assert Cached(cache, k) == BalanceRow(0, Sum(DebitAt(k), gl), Sum(CreditAt(k), gl), LastBalance(gl, k));
    if RowsAgree(gl) {
      LastBalanceAgrees(gl, k);
    }
  }

  /** The line loop of `post`: each line reads a latest row of its account, appends
      a ledger row with the new balance and updates the cache. */
  method InsertLines(ledger: seq<LedgerRow>, balances: map<AccountPeriod, BalanceRow>, lines: seq<Posting>, now: int)
    returns (gl: seq<LedgerRow>, cache: map<AccountPeriod, BalanceRow>)
    requires CacheTracks(ledger, balances)
    ensures CacheTracks(gl, cache) && Produces(ledger, lines, now, gl)
    ensures Postings(gl) == Postings(ledger) + lines
    ensures Orderly(ledger) && InTime(ledger, lines, now) ==> Orderly(gl)
  {
    gl, cache := ledger, balances;
    for i := 0 to |lines|
      invariant CacheTracks(gl, cache) && Produces(ledger, lines[..i], now, gl)
    {
      var p := lines[i];
      var previous := 0;
      if LastRow(gl, PostingKey(p)).Some? {
        ghost var some := SomeLatest(gl, PostingKey(p));
        var latest :| 0 <= latest < |gl| && LatestByTime(gl, PostingKey(p), latest);
        previous := gl[latest].balance;
      }
      var row := LedgerRow(p, previous + p.debit - p.credit, now);
      assert Front(gl + [row]) == gl && Front(lines[..i + 1]) == lines[..i];
      UpsertTracks(gl, cache, row);
      gl, cache := gl + [row], Upsert(cache, p, row.balance);
    }
    assert lines[..|lines|] == lines;
    ProducedRows(ledger, lines, now, gl);
    assert Postings(gl) == Postings(ledger) + lines by {
      assert forall i | 0 <= i < |ledger| :: gl[i] == gl[..|ledger|][i];
    }
    if Orderly(ledger) && InTime(ledger, lines, now) {
      PostKeepsOrder(ledger, lines, now, gl);
    }
  }
}
