/** Finite sums over sequences, shared by every ledger of the model. */
module Sums {

  /** SQL's SUM over the rows of a table (0 on no rows, as after COALESCE). */
  function Sum<T>(f: T -> int, s: seq<T>): int {
    if s == [] then 0 else Sum(f, s[..|s| - 1]) + f(s[|s| - 1])
  }

  lemma SumAppend<T>(f: T -> int, s: seq<T>, x: T)
    ensures Sum(f, s + [x]) == Sum(f, s) + f(x)
  {
    assert (s + [x])[..|s|] == s;
  }

  lemma SumOne<T>(f: T -> int, s: seq<T>, x: T)
    requires s == [x]
    ensures Sum(f, s) == f(x)
  {
    assert s == [] + [x];
    SumAppend(f, [], x);
  }

  lemma {:induction false} SumConcat<T>(f: T -> int, s: seq<T>, t: seq<T>)
    ensures Sum(f, s + t) == Sum(f, s) + Sum(f, t)
  {
    if t == [] {
      assert s + t == s;
    } else {
      var m := |t| - 1;
      assert (s + t)[..|s + t| - 1] == s + t[..m];
      SumConcat(f, s, t[..m]);
    }
  }

  lemma {:induction false} SumLe<T>(f: T -> int, g: T -> int, s: seq<T>)
    requires forall x | x in s :: f(x) <= g(x)
    ensures Sum(f, s) <= Sum(g, s)
  {
    if s != [] {
      SumLe(f, g, s[..|s| - 1]);
    }
  }

  lemma SumEqual<T>(f: T -> int, g: T -> int, s: seq<T>)
    requires forall x | x in s :: f(x) == g(x)
    ensures Sum(f, s) == Sum(g, s)
  {
    SumLe(f, g, s);
    SumLe(g, f, s);
  }

  lemma {:induction false} SumZero<T>(f: T -> int, s: seq<T>)
    requires forall x | x in s :: f(x) == 0
    ensures Sum(f, s) == 0
  {
    if s != [] {
      SumZero(f, s[..|s| - 1]);
    }
  }

  lemma {:induction false} SumNonNegative<T>(f: T -> int, s: seq<T>)
    requires forall x | x in s :: f(x) >= 0
    ensures Sum(f, s) >= 0
  {
    if s != [] {
      SumNonNegative(f, s[..|s| - 1]);
    }
  }

  lemma {:induction false} SumPlus<T>(f: T -> int, g: T -> int, h: T -> int, s: seq<T>)
    requires forall x | x in s :: h(x) == f(x) + g(x)
    ensures Sum(h, s) == Sum(f, s) + Sum(g, s)
  {
    if s != [] {
      SumPlus(f, g, h, s[..|s| - 1]);
    }
  }

  /** Only one position of `s` contributes to the sum. */
  lemma {:induction false} SumSingle<T>(f: T -> int, s: seq<T>, i: nat)
    requires i < |s|
    requires forall j | 0 <= j < |s| && j != i :: f(s[j]) == 0
    ensures Sum(f, s) == f(s[i])
  {
    var m := |s| - 1;
    if i == m {
      SumZero(f, s[..m]);
    } else {
      SumSingle(f, s[..m], i);
    }
  }

  /** Replacing one row changes the sum by the change of that row. */
  lemma {:induction false} SumUpdate<T>(f: T -> int, s: seq<T>, i: nat, x: T)
    requires i < |s|
    ensures Sum(f, s[i := x]) == Sum(f, s) - f(s[i]) + f(x)
  {
    var m := |s| - 1;
    if i == m {
      assert s[i := x][..m] == s[..m];
    } else {
      assert s[i := x][..m] == s[..m][i := x];
      SumUpdate(f, s[..m], i, x);
    }
  }

  function Fix<A, B>(h: (A, B) -> int, a: A): B -> int {
    b => h(a, b)
  }

  function Inner<A, B>(h: (A, B) -> int, t: seq<B>): A -> int {
    a => Sum(Fix(h, a), t)
  }

  function Flip<A, B>(h: (A, B) -> int): (B, A) -> int {
    (b, a) => h(a, b)
  }

  /** A double sum may be taken in either order. */
  lemma {:induction false} SumExchange<A, B>(h: (A, B) -> int, s: seq<A>, t: seq<B>)
    ensures Sum(Inner(h, t), s) == Sum(Inner(Flip(h), s), t)
  {
    if t == [] {
      SumZero(Inner(h, t), s);
    } else {
      var n := |t| - 1;
      var last := t[n];
      SumExchange(h, s, t[..n]);
      SumPlus(Inner(h, t[..n]), Fix(Flip(h), last), Inner(h, t), s);
    }
  }
}

/** Selecting the rows of a table, as a WHERE clause does. */
module Filters {
  function Filter<T>(f: T -> bool, s: seq<T>): seq<T> {
    if s == [] then []
    else if f(s[|s| - 1]) then Filter(f, s[..|s| - 1]) + [s[|s| - 1]]
    else Filter(f, s[..|s| - 1])
  }

  lemma {:induction false} FilterConcat<T>(f: T -> bool, s: seq<T>, t: seq<T>)
    ensures Filter(f, s + t) == Filter(f, s) + Filter(f, t)
  {
    if t == [] {
      assert s + t == s;
    } else {
      var m := |t| - 1;
      assert (s + t)[..|s + t| - 1] == s + t[..m];
      FilterConcat(f, s, t[..m]);
    }
  }

  lemma {:induction false} FilterAll<T>(f: T -> bool, s: seq<T>)
    requires forall x | x in s :: f(x)
    ensures Filter(f, s) == s
  {
    if s != [] {
      FilterAll(f, s[..|s| - 1]);
    }
  }

  lemma {:induction false} FilterNone<T>(f: T -> bool, s: seq<T>)
    requires forall x | x in s :: !f(x)
    ensures Filter(f, s) == []
  {
    if s != [] {
      FilterNone(f, s[..|s| - 1]);
    }
  }
}
