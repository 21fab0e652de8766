/** Amounts before and after they are stored. Requests carry any number of
    decimals; a NUMERIC(18,4) column rounds each value it receives. Amounts are
    reals in units of 10^-4 before storing, integers afterwards. */
module Rounding {
  import opened Sums

  /** No request carries a negative amount. */
  type RawAmount = x: real | x >= 0.0 witness 0.0

  /** Math.round, and PostgreSQL's rounding of an amount: halves upwards. */
  function Nearest(x: real): int { (x + 0.5).Floor }

  function Distance(x: real, y: real): real { if x < y then y - x else x - y }

  lemma NearestError(x: real)
    ensures Distance(Nearest(x) as real, x) <= 0.5
  {
  }

  lemma NearestShift(k: int, x: real)
    ensures Nearest(k as real + x) == k + Nearest(x)
  {
  }

  lemma NearestWhole(k: int)
    ensures Nearest(k as real) == k
  {
    NearestShift(k, 0.0);
  }

  /** The least whole number of units that is not below `x`. */
  function Ceil(x: real): int { 0 - (0.0 - x).Floor }

  lemma CeilIsLeast(x: real)
    ensures Ceil(x) as real >= x && Nearest(x) <= Ceil(x)
  {
  }

  lemma NearestWithin(x: real, n: int)
    requires x <= n as real
    ensures Nearest(x) <= n
  {
  }

  lemma CeilCompares(k: int, x: real)
    ensures k as real >= x <==> k >= Ceil(x)
  {
  }

  /** At most four decimals. */
  predicate Whole(x: real) { x == x.Floor as real }

  function Units(x: real): int { x.Floor }

  // ------------------------------------------------------------------
  // Sums of unrounded amounts
  // ------------------------------------------------------------------

  function RealSum<T>(f: T -> real, s: seq<T>): real {
    if s == [] then 0.0 else RealSum(f, s[..|s| - 1]) + f(s[|s| - 1])
  }

  lemma RealSumAppend<T>(f: T -> real, s: seq<T>, x: T)
    ensures RealSum(f, s + [x]) == RealSum(f, s) + f(x)
  {
    assert (s + [x])[..|s|] == s;
  }

  lemma RealSumOne<T>(f: T -> real, s: seq<T>, x: T)
    requires s == [x]
    ensures RealSum(f, s) == f(x)
  {
    assert s == [] + [x];
    RealSumAppend(f, [], x);
  }

  lemma {:induction false} RealSumZero<T>(f: T -> real, s: seq<T>)
    requires forall x | x in s :: f(x) == 0.0
    ensures RealSum(f, s) == 0.0
  {
    if s != [] {
      RealSumZero(f, s[..|s| - 1]);
    }
  }

  lemma {:induction false} RealSumNonNegative<T>(f: T -> real, s: seq<T>)
    requires forall x | x in s :: f(x) >= 0.0
    ensures RealSum(f, s) >= 0.0
  {
    if s != [] {
      RealSumNonNegative(f, s[..|s| - 1]);
    }
  }

  lemma {:induction false} RealSumSingle<T>(f: T -> real, s: seq<T>, i: nat)
    requires i < |s|
    requires forall j | 0 <= j < |s| && j != i :: f(s[j]) == 0.0
    ensures RealSum(f, s) == f(s[i])
  {
    var m := |s| - 1;
    if i == m {
      RealSumZero(f, s[..m]);
    } else {
      RealSumSingle(f, s[..m], i);
    }
  }

  lemma {:induction false} RealSumAtLeast<T>(f: T -> real, s: seq<T>, i: nat)
    requires i < |s| && forall x | x in s :: f(x) >= 0.0
    ensures RealSum(f, s) >= f(s[i])
  {
    var m := |s| - 1;
    if i == m {
      RealSumNonNegative(f, s[..m]);
    } else {
      assert s[m] in s;
      RealSumAtLeast(f, s[..m], i);
    }
  }

  /** Whole amounts add up as integers do. */
  lemma {:induction false} RealSumWhole<T>(f: T -> real, g: T -> int, s: seq<T>)
    requires forall x | x in s :: f(x) == g(x) as real
    ensures RealSum(f, s) == Sum(g, s) as real
  {
    if s != [] {
      RealSumWhole(f, g, s[..|s| - 1]);
    }
  }

  // ------------------------------------------------------------------
  // Rounding each against rounding the sum
  // ------------------------------------------------------------------

  function RoundedBy<T>(f: T -> real): T -> int {
    x => Nearest(f(x))
  }

  /** The sum of the stored amounts. */
  function StoredSum<T>(f: T -> real, s: seq<T>): int { Sum(RoundedBy(f), s) }

  lemma {:induction false} StoredSumError<T>(f: T -> real, s: seq<T>)
    ensures Distance(StoredSum(f, s) as real, RealSum(f, s)) <= 0.5 * |s| as real
  {
    if s != [] {
      var m := |s| - 1;
      StoredSumError(f, s[..m]);
      NearestError(f(s[m]));
    }
  }

  function Abs(x: int): int { if x < 0 then 0 - x else x }

  /** How far the stored total departs from the total of what was stored. */
  function Drift<T>(f: T -> real, s: seq<T>): int { Nearest(RealSum(f, s)) - StoredSum(f, s) }

  /** At most half a unit for each amount and for the total; nothing at four decimals. */
  lemma DriftBound<T>(f: T -> real, s: seq<T>)
    ensures 2 * Abs(Drift(f, s)) <= |s| + 1
    ensures (forall x | x in s :: Whole(f(x))) ==> Drift(f, s) == 0 && RealSum(f, s) == StoredSum(f, s) as real
  {
    StoredSumError(f, s);
    NearestError(RealSum(f, s));
    if forall x | x in s :: Whole(f(x)) {
      forall x | x in s ensures f(x) == RoundedBy(f)(x) as real {
        NearestWhole(f(x).Floor);
      }
      RealSumWhole(f, RoundedBy(f), s);
      NearestWhole(StoredSum(f, s));
    }
  }
}
