/** Allocation rows: how one payment is spread over the documents it settles.
    Payables and receivables share this shape. */
module Allocations {
  import opened Sums
  import opened Rounding

  /** A stored row; `target` is an AP transaction or a customer invoice. */
  datatype Allocation = Allocation(payment: nat, target: nat, amount: int)

  /** One line of a payment request, unrounded. */
  datatype AllocationDto = AllocationDto(target: nat, amount: RawAmount)

  /** The requests demand at least 0.0001. */
  predicate Positive(dtos: seq<AllocationDto>) { forall a | a in dtos :: a.amount >= 1.0 }

  function AllocatedTo(t: nat): Allocation -> int {
    (a: Allocation) => if a.target == t then a.amount else 0
  }

  function InPayment(p: nat): Allocation -> int {
    (a: Allocation) => if a.payment == p then a.amount else 0
  }

  /** Counts the rows of a payment. */
  function OneIn(p: nat): Allocation -> int {
    (a: Allocation) => if a.payment == p then 1 else 0
  }

  function AllocationAmount(): Allocation -> int { (a: Allocation) => a.amount }

  function RequestedFor(t: nat): AllocationDto -> int {
    (a: AllocationDto) => if a.target == t then Nearest(a.amount) else 0
  }

  function AmountFor(dtos: seq<AllocationDto>, t: nat): int { Sum(RequestedFor(t), dtos) }

  function RawOf(): AllocationDto -> real { (a: AllocationDto) => a.amount }

  function DtoAmount(): AllocationDto -> int { RoundedBy(RawOf()) }

  /** The sum of the rows that a request stores. */
  function StoredTotal(dtos: seq<AllocationDto>): int { Sum(DtoAmount(), dtos) }

  /** The unrounded total, which the payment and its journal carry. */
  function RawTotal(dtos: seq<AllocationDto>): RawAmount {
    RealSumNonNegative(RawOf(), dtos);
    RealSum(RawOf(), dtos)
  }

  /** The payment's amount as stored. */
  function PaymentTotal(dtos: seq<AllocationDto>): int { Nearest(RawTotal(dtos)) }

  /** A payment and its rows add up to the same exactly when rounding the sum and
      summing the rounded come to the same; they always do at four decimals, and
      never differ by more than half a unit for each row and one half. */
  lemma PaymentVersusRows(dtos: seq<AllocationDto>)
    ensures PaymentTotal(dtos) - StoredTotal(dtos) == Drift(RawOf(), dtos)
    ensures 2 * Abs(PaymentTotal(dtos) - StoredTotal(dtos)) <= |dtos| + 1
    ensures (forall a | a in dtos :: Whole(a.amount)) ==> PaymentTotal(dtos) == StoredTotal(dtos)
  {
    DriftBound(RawOf(), dtos);
  }

  /** A payment's amount and its rows differ by at most half a unit for each row and one half. */
  ghost predicate AmountOk(amount: int, allocations: seq<Allocation>, p: nat) {
    2 * Abs(amount - Sum(InPayment(p), allocations)) <= Sum(OneIn(p), allocations) + 1
  }

  /** A new payment and its rows are so, and leave the earlier ones so. */
  lemma NewRowsAreOk(amounts: seq<int>, allocations: seq<Allocation>, dtos: seq<AllocationDto>, p: nat)
    requires forall a | a in allocations :: a.payment < |amounts|
    requires p <= |amounts| && (p < |amounts| ==> AmountOk(amounts[p], allocations, p))
    ensures AmountOk((amounts + [PaymentTotal(dtos)])[p], allocations + Rows(dtos, |amounts|), p)
  {
    var n := |amounts|;
    RowsSums(dtos, n, 0);
    SumConcat(InPayment(p), allocations, Rows(dtos, n));
    SumConcat(OneIn(p), allocations, Rows(dtos, n));
    if p == n {
      SumZero(InPayment(p), allocations);
      SumZero(OneIn(p), allocations);
      PaymentVersusRows(dtos);
    }
  }

  predicate WholeAmounts(dtos: seq<AllocationDto>) { forall a | a in dtos :: Whole(a.amount) }

  /** Two allocations of 33.33335. */
  function TwoHalves(t: nat, u: nat): seq<AllocationDto> { [AllocationDto(t, 333333.5), AllocationDto(u, 333333.5)] }

  lemma TwoHalvesDrift(t: nat, u: nat)
    ensures PaymentTotal(TwoHalves(t, u)) == 666667 && StoredTotal(TwoHalves(t, u)) == 666668
  {
    var first, second := AllocationDto(t, 333333.5), AllocationDto(u, 333333.5);
    assert TwoHalves(t, u) == [first] + [second];
    RealSumOne(RawOf(), [first], first);
    RealSumAppend(RawOf(), [first], second);
    SumOne(DtoAmount(), [first], first);
    SumAppend(DtoAmount(), [first], second);
  }

  predicate DistinctTargets(dtos: seq<AllocationDto>) {
    forall i, j | 0 <= i < j < |dtos| :: dtos[i].target != dtos[j].target
  }

  function Rows(dtos: seq<AllocationDto>, payment: nat): (rows: seq<Allocation>)
    ensures |rows| == |dtos| && forall i | 0 <= i < |dtos| ::
              rows[i] == Allocation(payment, dtos[i].target, Nearest(dtos[i].amount))
  {
    seq(|dtos|, i requires 0 <= i < |dtos| => Allocation(payment, dtos[i].target, Nearest(dtos[i].amount)))
  }

  lemma {:induction false} RowsSums(dtos: seq<AllocationDto>, p: nat, t: nat)
    ensures Sum(AllocatedTo(t), Rows(dtos, p)) == AmountFor(dtos, t)
    ensures Sum(AllocationAmount(), Rows(dtos, p)) == Sum(DtoAmount(), dtos)
    ensures Sum(InPayment(p), Rows(dtos, p)) == Sum(DtoAmount(), dtos)
    ensures Sum(OneIn(p), Rows(dtos, p)) == |dtos|
    ensures forall q: nat | q != p :: Sum(InPayment(q), Rows(dtos, p)) == 0 && Sum(OneIn(q), Rows(dtos, p)) == 0
  {
    if dtos != [] {
      var m := |dtos| - 1;
      RowsSums(dtos[..m], p, t);
      assert Rows(dtos, p)[..m] == Rows(dtos[..m], p);
    }
  }

  lemma AmountForDistinct(dtos: seq<AllocationDto>, t: nat)
    requires DistinctTargets(dtos)
    ensures forall a | a in dtos && a.target == t :: AmountFor(dtos, t) == Nearest(a.amount)
    ensures (forall a | a in dtos :: a.target != t) ==> AmountFor(dtos, t) == 0
  {
    if a :| a in dtos && a.target == t {
      var i :| 0 <= i < |dtos| && dtos[i] == a;
      SumSingle(RequestedFor(t), dtos, i);
      assert forall b | b in dtos && b.target == t :: b == a;
    } else {
      SumZero(RequestedFor(t), dtos);
    }
  }

  lemma PositiveTotal(dtos: seq<AllocationDto>)
    requires dtos != [] && Positive(dtos)
    ensures PaymentTotal(dtos) > 0 && StoredTotal(dtos) > 0
  {
    var m := |dtos| - 1;
    assert dtos[m] in dtos;
    RealSumNonNegative(RawOf(), dtos[..m]);
    SumNonNegative(DtoAmount(), dtos[..m]);
  }

  function Values<T>(f: T -> int, xs: seq<T>): (r: seq<int>)
    ensures |r| == |xs| && forall i | 0 <= i < |xs| :: r[i] == f(xs[i])
  {
    seq(|xs|, i requires 0 <= i < |xs| => f(xs[i]))
  }

  function Itself(): int -> int { (n: int) => n }

  lemma {:induction false} SumOfValues<T>(f: T -> int, xs: seq<T>)
    ensures Sum(Itself(), Values(f, xs)) == Sum(f, xs)
  {
    if xs != [] {
      var m := |xs| - 1;
      assert Values(f, xs)[..m] == Values(f, xs[..m]);
      SumOfValues(f, xs[..m]);
    }
  }

  lemma {:induction false} ValuesGrow(xs: seq<int>, ys: seq<int>, dtos: seq<AllocationDto>)
    requires |ys| == |xs|
    requires forall a | a in dtos :: a.target < |xs|
    requires forall t | 0 <= t < |xs| :: ys[t] == xs[t] + AmountFor(dtos, t)
    ensures Sum(Itself(), ys) == Sum(Itself(), xs) + Sum(DtoAmount(), dtos)
    decreases |dtos|
  {
    if dtos == [] {
      assert xs == ys;
    } else {
      var m := |dtos| - 1;
      var last := dtos[m];
      assert last in dtos;
      SumUpdate(Itself(), ys, last.target, ys[last.target] - Nearest(last.amount));
      ValuesGrow(xs, ys[last.target := ys[last.target] - Nearest(last.amount)], dtos[..m]);
    }
  }

  /** When every document's paid amount grows by what was requested for it, the
      paid amounts together grow by the whole payment. */
  lemma PaidGrows<T>(paid: T -> int, xs: seq<T>, ys: seq<T>, dtos: seq<AllocationDto>)
    requires |ys| == |xs|
    requires forall a | a in dtos :: a.target < |xs|
    requires forall t | 0 <= t < |xs| :: paid(ys[t]) == paid(xs[t]) + AmountFor(dtos, t)
    ensures Sum(paid, ys) == Sum(paid, xs) + Sum(DtoAmount(), dtos)
  {
    SumOfValues(paid, xs);
    SumOfValues(paid, ys);
    ValuesGrow(Values(paid, xs), Values(paid, ys), dtos);
  }
}
