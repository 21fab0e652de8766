/** lockStockKeys: the textual lock key, the order in which locks are taken, and
    the loop that takes them (src/database/stock-lock.ts). */
module StockLock {
  import opened Sorting
  import opened Common
  import opened StockLedger

  // ------------------------------------------------------------------
  // keyString
  // ------------------------------------------------------------------

  function BatchNumber(batch: Option<Id>): nat {
    if batch.Some? then batch.value else 0
  }

  function KeyString(k: StockKey): string {
    Decimal(k.variant) + ":" + Decimal(k.warehouse) + ":" + Decimal(BatchNumber(k.batch))
  }

  /** Different stock keys never share a lock string. */
  lemma KeyStringInjective(j: StockKey, k: StockKey)
    requires KeyString(j) == KeyString(k)
    ensures j == k
  {
    var (jw, kw) := (Decimal(j.warehouse), Decimal(k.warehouse));
    var (jb, kb) := (Decimal(BatchNumber(j.batch)), Decimal(BatchNumber(k.batch)));
    assert KeyString(j) == Decimal(j.variant) + ":" + (jw + ":" + jb);
    assert KeyString(k) == Decimal(k.variant) + ":" + (kw + ":" + kb);
    SplitAt(':', Decimal(j.variant), jw + ":" + jb, Decimal(k.variant), kw + ":" + kb);
    SplitAt(':', jw, jb, kw, kb);
    DecimalInjective(j.variant, k.variant);
    DecimalInjective(j.warehouse, k.warehouse);
    DecimalInjective(BatchNumber(j.batch), BatchNumber(k.batch));
  }

  // ------------------------------------------------------------------
  // localeCompare on such strings: lexicographic, the colon before the digits
  // ------------------------------------------------------------------

  function Weight(c: char): int { if c == ':' then -1 else c as int }

  predicate Before(a: string, b: string) {
    b != "" && (a == "" || (if a[0] == b[0] then Before(a[1..], b[1..]) else Weight(a[0]) < Weight(b[0])))
  }

  lemma {:induction false} BeforeTransitive(a: string, b: string, c: string)
    requires Before(a, b) && Before(b, c)
    ensures Before(a, c)
  {
    if a != "" && a[0] == b[0] == c[0] {
      BeforeTransitive(a[1..], b[1..], c[1..]);
    }
  }

  lemma {:induction false} BeforeIrreflexive(a: string)
    ensures !Before(a, a)
  {
    if a != "" {
      BeforeIrreflexive(a[1..]);
    }
  }

  lemma {:induction false} BeforeTotal(a: string, b: string)
    ensures a == b || Before(a, b) || Before(b, a)
  {
    if a != "" && b != "" && a[0] == b[0] {
      BeforeTotal(a[1..], b[1..]);
      assert a == [a[0]] + a[1..] && b == [b[0]] + b[1..];
    }
  }

  predicate KeyBefore(j: StockKey, k: StockKey) { Before(KeyString(j), KeyString(k)) }

  lemma KeyOrder(j: StockKey, k: StockKey)
    ensures !KeyBefore(k, k)
    ensures j == k || KeyBefore(j, k) || KeyBefore(k, j)
    ensures !(KeyBefore(j, k) && KeyBefore(k, j))
  {
    BeforeIrreflexive(KeyString(k));
    BeforeTotal(KeyString(j), KeyString(k));
    if KeyString(j) == KeyString(k) {
      KeyStringInjective(j, k);
    }
    if KeyBefore(j, k) && KeyBefore(k, j) {
      BeforeTransitive(KeyString(k), KeyString(j), KeyString(k));
    }
  }

  // ------------------------------------------------------------------
  // Deduplicate by key string, then sort
  // ------------------------------------------------------------------

  predicate StrictlyOrdered(s: seq<StockKey>) {
    forall i, j | 0 <= i < j < |s| :: KeyBefore(s[i], s[j])
  }

  /** [...new Map(keys.map(k => [keyString(k), k])).values()] */
  function Dedupe(keys: seq<StockKey>): (unique: seq<StockKey>)
    ensures Distinct(unique)
    ensures forall k :: k in unique <==> k in keys
  {
    if keys == [] then [] else
      var last := keys[|keys| - 1];
      var unique := Dedupe(keys[..|keys| - 1]);
      assert keys == keys[..|keys| - 1] + [last];
      if exists k | k in unique :: KeyString(k) == KeyString(last) then
        assert last in unique by {
          var k :| k in unique && KeyString(k) == KeyString(last);
          KeyStringInjective(k, last);
        }
        unique
      else
        unique + [last]
  }

  function KeyLe(): (StockKey, StockKey) -> bool {
    (j: StockKey, k: StockKey) => j == k || KeyBefore(j, k)
  }

  lemma KeyLeTotal()
    ensures TotalOrder(KeyLe())
  {
    forall j, k ensures KeyLe()(j, k) || KeyLe()(k, j) {
      KeyOrder(j, k);
    }
    forall j, k, l | KeyLe()(j, k) && KeyLe()(k, l) ensures KeyLe()(j, l) {
      if KeyBefore(j, k) && KeyBefore(k, l) {
        BeforeTransitive(KeyString(j), KeyString(k), KeyString(l));
      }
    }
  }

  function SortKeys(keys: seq<StockKey>): (r: seq<StockKey>)
    requires Distinct(keys)
    ensures StrictlyOrdered(r)
    ensures forall k :: k in r <==> k in keys
  {
    KeyLeTotal();
    SortSorted(KeyLe(), keys);
    DistinctStays(keys, Sort(KeyLe(), keys));
    SameMembers(keys, Sort(KeyLe(), keys));
    Sort(KeyLe(), keys)
  }

  function LockOrder(keys: seq<StockKey>): (order: seq<StockKey>)
    ensures StrictlyOrdered(order)
    ensures forall k :: k in order <==> k in keys
  {
    SortKeys(Dedupe(keys))
  }

  /** The order depends only on which keys are asked for. */
  lemma {:induction false} OrderIsCanonical(s: seq<StockKey>, t: seq<StockKey>)
    requires StrictlyOrdered(s) && StrictlyOrdered(t)
    requires forall k :: k in s <==> k in t
    ensures s == t
  {
    assert t != [] ==> t[0] in t;
    if s != [] {
      assert s[0] in t && t != [];
      assert t[0] in s;
      KeyOrder(s[0], t[0]);
      assert s[0] == t[0];
      forall k ensures k in s[1..] <==> k in t[1..] {
        KeyOrder(k, s[0]);
        assert k in s[1..] ==> k in s && KeyBefore(s[0], k);
        assert k in t[1..] ==> k in t && KeyBefore(t[0], k);
      }
      OrderIsCanonical(s[1..], t[1..]);
    }
  }

  // ------------------------------------------------------------------
  // The acquisition loop
  // ------------------------------------------------------------------

  type TxId = nat

  /** `tx` has taken `keys`, each of them free or its own before; nothing else changed. */
  ghost predicate Taken(before: map<StockKey, TxId>, keys: seq<StockKey>, tx: TxId, after: map<StockKey, TxId>) {
    && (forall k :: k in after <==> k in before || k in keys)
    && (forall k | k in after :: after[k] == if k in keys then tx else before[k])
    && (forall k | k in keys :: k !in before || before[k] == tx)
  }

  lemma TakeNext(before: map<StockKey, TxId>, keys: seq<StockKey>, tx: TxId, after: map<StockKey, TxId>, k: StockKey)
    requires Taken(before, keys, tx, after) && (k !in after || after[k] == tx)
    ensures Taken(before, keys + [k], tx, after[k := tx])
  {
  }

  /** PostgreSQL's table of transaction-scoped advisory locks. */
  class LockTable {
    var owner: map<StockKey, TxId>

    constructor ()
      ensures owner == map[]
    {
      owner := map[];
    }

    /** Runs the loop of lockStockKeys up to its end or to its first wait: a
        prefix of the order is taken, nothing else changes, and if the prefix is
        proper its successor belongs to another transaction. */
    method LockStockKeys(tx: TxId, keys: seq<StockKey>) returns (held: nat)
      modifies this
      ensures held <= |LockOrder(keys)|
      ensures Taken(old(owner), LockOrder(keys)[..held], tx, owner)
      ensures held < |LockOrder(keys)| ==>
                var next := LockOrder(keys)[held]; next in owner && owner[next] != tx
    {
      var order := LockOrder(keys);
      held := 0;
      ghost var done: seq<StockKey> := [];
      while held < |order| && (order[held] !in owner || owner[order[held]] == tx)
        invariant held <= |order|
        invariant done == order[..held] && Taken(old(owner), done, tx, owner)
      {
        TakeNext(old(owner), done, tx, owner, order[held]);
        done := done + [order[held]];
        owner := owner[order[held] := tx];
        held := held + 1;
      }
    }
  }
}
