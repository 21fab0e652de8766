/** Accounts payable: payments that settle several AP transactions at once, and
    vendor invoices that may be cancelled meanwhile. */
module Payables {
  import opened Common
  import opened Sums
  import opened Rounding
  import opened Allocations
  import opened Entries
  import Books
  import BooksInvariant

  datatype TxStatus = TxOpen | TxPartial | TxPaid

  datatype InvoiceStatus = Unpaid | Partial | Paid | Cancelled

  datatype VendorInvoice = VendorInvoice(total: int, paid: int, status: InvoiceStatus)

  datatype ApTransaction = ApTransaction(invoice: nat, supplier: Id, amount: int, paid: int, status: TxStatus)

  datatype Payment = Payment(supplier: Id, amount: int)

  /** Tables in insertion order; a row's id is its index. */
  datatype Ap = Ap(invoices: seq<VendorInvoice>, txs: seq<ApTransaction>,
                   allocations: seq<Allocation>, payments: seq<Payment>)

  datatype Error = NoAllocations | DuplicateTransaction | NotFound | ExceedsOutstanding | InvoiceCancelled
                 | CheckViolation | JournalRejected | SourceNotFound | NoPeriod | AlreadyPaid | StatusChanged

  function PaymentAmount(): Payment -> int { (p: Payment) => p.amount }

  function PaidAmount(): ApTransaction -> int { (x: ApTransaction) => x.paid }

  // ------------------------------------------------------------------
  // What a payment is allowed to do, and what it does
  // ------------------------------------------------------------------

  function Outstanding(x: ApTransaction): int { x.amount - x.paid }

  /** The row that the locked query returns for an allocation. */
  predicate Payable(s: Ap, supplier: Id, a: AllocationDto) {
    && a.target < |s.txs|
    && s.txs[a.target].supplier == supplier
    && s.txs[a.target].status != TxPaid
  }

  predicate InvoiceLive(s: Ap, a: AllocationDto) {
    a.target < |s.txs| && s.txs[a.target].invoice < |s.invoices|
    && s.invoices[s.txs[a.target].invoice].status != Cancelled
  }

  /** Everything createPayment itself checks. */
  predicate PassesChecks(s: Ap, supplier: Id, dtos: seq<AllocationDto>) {
    && dtos != [] && DistinctTargets(dtos)
    && forall a | a in dtos ::
         Payable(s, supplier, a) && a.amount <= (Outstanding(s.txs[a.target]) + TOLERANCE) as real && InvoiceLive(s, a)
  }

  /** The reads before the transaction: `seen[i]` is the transaction table as the
      i-th of them found it. */
  predicate SeenAdmits(seen: seq<seq<ApTransaction>>, supplier: Id, dtos: seq<AllocationDto>)
    requires |seen| == |dtos|
  {
    forall i | 0 <= i < |dtos| ::
      && dtos[i].target < |seen[i]| && seen[i][dtos[i].target].supplier == supplier
      && seen[i][dtos[i].target].status != TxPaid
          && dtos[i].amount <= (Outstanding(seen[i][dtos[i].target]) + TOLERANCE) as real
  }

  /** What the table constraints still demand: nothing is paid beyond its amount. */
  predicate WithinOutstanding(s: Ap, dtos: seq<AllocationDto>) {
    forall a | a in dtos :: a.target < |s.txs| && Nearest(a.amount) <= Outstanding(s.txs[a.target])
  }

  function TxStatusFor(paid: int, amount: int): TxStatus {
    if paid >= amount then TxPaid else if paid > 0 then TxPartial else TxOpen
  }

  function InvoiceStatusFor(s: TxStatus): InvoiceStatus {
    match s case TxPaid => Paid case TxPartial => Partial case TxOpen => Unpaid
  }

  function PayTx(x: ApTransaction, amount: int): ApTransaction {
    if amount == 0 then x
    else x.(paid := x.paid + amount, status := TxStatusFor(x.paid + amount, x.amount))
  }

  function PayInvoice(v: VendorInvoice, x: ApTransaction, amount: int): VendorInvoice {
    if amount == 0 then v
    else v.(paid := PayTx(x, amount).paid, status := InvoiceStatusFor(PayTx(x, amount).status))
  }

  /** The whole effect of a payment on both tables: every transaction and its
      invoice grow by what was requested for it. */
  ghost predicate Pays(s: Ap, supplier: Id, dtos: seq<AllocationDto>, s': Ap) {
    && |s'.txs| == |s.txs| && |s'.invoices| == |s.invoices|
    && (forall t | 0 <= t < |s.txs| :: s'.txs[t] == PayTx(s.txs[t], AmountFor(dtos, t)))
    && (forall t | 0 <= t < |s.txs| && s.txs[t].invoice < |s.invoices| ::
          s'.invoices[s.txs[t].invoice] == PayInvoice(s.invoices[s.txs[t].invoice], s.txs[t], AmountFor(dtos, t)))
    && s'.allocations == s.allocations + Rows(dtos, |s.payments|)
    && s'.payments == s.payments + [Payment(supplier, PaymentTotal(dtos))]
  }

  // ------------------------------------------------------------------
  // Invariant
  // ------------------------------------------------------------------

  ghost predicate HasTransaction(txs: seq<ApTransaction>, v: nat) {
    exists t :: 0 <= t < |txs| && txs[t].invoice == v
  }

  /** One transaction per invoice, and one invoice per transaction. */
  ghost predicate Linked(s: Ap) {
    && (forall t | 0 <= t < |s.txs| :: s.txs[t].invoice < |s.invoices|)
    && (forall t, u | 0 <= t < u < |s.txs| :: s.txs[t].invoice != s.txs[u].invoice)
    && (forall v: nat | v < |s.invoices| :: HasTransaction(s.txs, v))
  }

  ghost predicate TxOk(s: Ap, t: nat)
    requires t < |s.txs| && s.txs[t].invoice < |s.invoices|
  {
    var x, v := s.txs[t], s.invoices[s.txs[t].invoice];
    && x.paid == Sum(AllocatedTo(t), s.allocations)
    && v.paid == x.paid && v.total == x.amount
    && 0 <= x.paid <= x.amount
    && (x.status == TxPaid ==> x.paid == x.amount)
    && (x.status == TxPartial ==> 0 < x.paid < x.amount)
    && (x.status == TxOpen ==> x.paid == 0)
    && (match v.status case Paid => v.paid == v.total case Partial => 0 < v.paid < v.total case _ => v.paid == 0)
  }

  ghost predicate Inv(s: Ap) {
    && Linked(s)
    && (forall t | 0 <= t < |s.txs| :: TxOk(s, t))
    && (forall a | a in s.allocations :: a.target < |s.txs| && a.payment < |s.payments| && a.amount > 0)
    && (forall p | 0 <= p < |s.payments| :: AmountOk(s.payments[p].amount, s.allocations, p))
    && Sum(PaidAmount(), s.txs) == Sum(AllocationAmount(), s.allocations)
  }

  lemma PaysKeepsTx(s: Ap, supplier: Id, dtos: seq<AllocationDto>, s': Ap, t: nat)
    requires Inv(s) && Pays(s, supplier, dtos, s') && t < |s.txs|
    requires PassesChecks(s, supplier, dtos) && WithinOutstanding(s, dtos)
    requires Positive(dtos)
    ensures TxOk(s', t)
  {
    AmountForDistinct(dtos, t);
    RowsSums(dtos, |s.payments|, t);
    SumConcat(AllocatedTo(t), s.allocations, Rows(dtos, |s.payments|));
    assert TxOk(s, t);
    if a :| a in dtos && a.target == t {
      assert Payable(s, supplier, a) && InvoiceLive(s, a);
    }
  }

  lemma PaysKeepsLinks(s: Ap, supplier: Id, dtos: seq<AllocationDto>, s': Ap)
    requires Inv(s) && Pays(s, supplier, dtos, s')
    ensures Linked(s')
  {
    forall t | 0 <= t < |s.txs| ensures s'.txs[t].invoice == s.txs[t].invoice {
      assert s'.txs[t] == PayTx(s.txs[t], AmountFor(dtos, t));
    }
    forall v: nat | v < |s'.invoices| ensures HasTransaction(s'.txs, v) {
      assert HasTransaction(s.txs, v);
      var t :| 0 <= t < |s.txs| && s.txs[t].invoice == v;
      assert s'.txs[t].invoice == v;
    }
  }

  lemma PaysKeepsPayments(s: Ap, supplier: Id, dtos: seq<AllocationDto>, s': Ap, p: nat)
    requires Inv(s) && Pays(s, supplier, dtos, s') && p < |s'.payments|
    ensures AmountOk(s'.payments[p].amount, s'.allocations, p)
  {
    NewRowsAreOk(Values(PaymentAmount(), s.payments), s.allocations, dtos, p);
  }

  lemma PaysKeepsTotals(s: Ap, supplier: Id, dtos: seq<AllocationDto>, s': Ap)
    requires Inv(s) && Pays(s, supplier, dtos, s')
    requires forall a | a in dtos :: a.target < |s.txs|
    ensures Sum(AllocationAmount(), s'.allocations) == Sum(PaidAmount(), s'.txs)
  {
    var n := |s.payments|;
    RowsSums(dtos, n, 0);
    SumConcat(AllocationAmount(), s.allocations, Rows(dtos, n));
    PaidGrows(PaidAmount(), s.txs, s'.txs, dtos);
  }

  lemma PaysKeepsInv(s: Ap, supplier: Id, dtos: seq<AllocationDto>, s': Ap)
    requires Inv(s) && Pays(s, supplier, dtos, s')
    requires PassesChecks(s, supplier, dtos) && WithinOutstanding(s, dtos)
    requires Positive(dtos)
    ensures Inv(s')
  {
    PaysKeepsLinks(s, supplier, dtos, s');
    PaysKeepsTotals(s, supplier, dtos, s');
    forall t | 0 <= t < |s.txs| ensures TxOk(s', t) {
      PaysKeepsTx(s, supplier, dtos, s', t);
    }
    var rows := Rows(dtos, |s.payments|);
    forall a | a in s'.allocations ensures a.target < |s'.txs| && a.payment < |s'.payments| && a.amount > 0 {
      if a !in s.allocations {
        var i :| 0 <= i < |rows| && rows[i] == a;
        assert dtos[i] in dtos;
      }
    }
    forall p | 0 <= p < |s'.payments| ensures AmountOk(s'.payments[p].amount, s'.allocations, p) {
      PaysKeepsPayments(s, supplier, dtos, s', p);
    }
  }

  // ------------------------------------------------------------------
  // Steps and histories
  // ------------------------------------------------------------------

  datatype Step =
    | Invoice(supplier: Id, total: int)
    | Pay(supplier: Id, dtos: seq<AllocationDto>)
    | CancelRead(invoice: nat)
    | CancelWrite(invoice: nat)

  /** `cancelling` holds the invoices whose cancel call has passed its first read. */
  datatype State = State(ap: Ap, cancelling: set<nat>)

  ghost predicate Next(s: State, step: Step, s': State) {
    match step
    case Invoice(supplier, total) =>
      total >= 0
      && s' == s.(ap := s.ap.(invoices := s.ap.invoices + [VendorInvoice(total, 0, Unpaid)],
                              txs := s.ap.txs + [ApTransaction(|s.ap.invoices|, supplier, total, 0, TxOpen)]))
    case Pay(supplier, dtos) =>
      && PassesChecks(s.ap, supplier, dtos) && WithinOutstanding(s.ap, dtos)
      && Positive(dtos)
      && Pays(s.ap, supplier, dtos, s'.ap) && s'.cancelling == s.cancelling
    case CancelRead(v) =>
      && v < |s.ap.invoices| && s.ap.invoices[v].status != Paid && s.ap.invoices[v].paid <= 0
      && s' == s.(cancelling := s.cancelling + {v})
    case CancelWrite(v) =>
      && v in s.cancelling && v < |s.ap.invoices|
      && s' == (if s.ap.invoices[v].status != Cancelled && s.ap.invoices[v].paid == 0
                then s.(ap := s.ap.(invoices := s.ap.invoices[v := s.ap.invoices[v].(status := Cancelled)]),
                        cancelling := s.cancelling - {v})
                else s.(cancelling := s.cancelling - {v}))
  }

  lemma InvoiceKeepsInv(s: Ap, supplier: Id, total: int)
    requires Inv(s) && total >= 0
    ensures Inv(s.(invoices := s.invoices + [VendorInvoice(total, 0, Unpaid)],
                   txs := s.txs + [ApTransaction(|s.invoices|, supplier, total, 0, TxOpen)]))
  {
    var n := |s.txs|;
    var s' := s.(invoices := s.invoices + [VendorInvoice(total, 0, Unpaid)],
                 txs := s.txs + [ApTransaction(|s.invoices|, supplier, total, 0, TxOpen)]);
    SumZero(AllocatedTo(n), s.allocations);
    forall t | 0 <= t < |s'.txs| ensures TxOk(s', t) {
      assert t < n ==> TxOk(s, t);
    }
    forall v: nat | v < |s'.invoices| ensures HasTransaction(s'.txs, v) {
      if v < |s.invoices| {
        assert HasTransaction(s.txs, v);
        var t :| 0 <= t < |s.txs| && s.txs[t].invoice == v;
        assert s'.txs[t].invoice == v;
      } else {
        assert s'.txs[n].invoice == v;
      }
    }
    SumAppend(PaidAmount(), s.txs, s'.txs[n]);
  }

  lemma StepKeepsInv(s: State, step: Step, s': State)
    requires Inv(s.ap) && Next(s, step, s')
    ensures Inv(s'.ap)
  {
    match step
    case Invoice(supplier, total) => InvoiceKeepsInv(s.ap, supplier, total);
    case Pay(supplier, dtos) => PaysKeepsInv(s.ap, supplier, dtos, s'.ap);
    case CancelRead(v) =>
    case CancelWrite(v) =>
      forall t | 0 <= t < |s'.ap.txs| ensures TxOk(s'.ap, t) {
        assert TxOk(s.ap, t);
      }
  }

  ghost predicate Trace(states: seq<State>, steps: seq<Step>) {
    && |states| == |steps| + 1
    && states[0] == State(Ap([], [], [], []), {})
    && forall i | 0 <= i < |steps| :: Next(states[i], steps[i], states[i + 1])
  }

  /** Over every history: both tables show the sum of a transaction's stored
      allocations, never more than its amount and with the status that goes with it;
      a cancelled invoice has nothing paid; a payment and its rows differ by no more
      than rounding explains. */
  lemma {:induction false} HistoryKeepsInv(states: seq<State>, steps: seq<Step>)
    requires Trace(states, steps)
    ensures Inv(states[|steps|].ap)
    decreases steps
  {
    if steps != [] {
      var n := |steps| - 1;
      assert Trace(states[..n + 1], steps[..n]);
      HistoryKeepsInv(states[..n + 1], steps[..n]);
      StepKeepsInv(states[n], steps[n], states[n + 1]);
    }
  }

  /** What a step's payment carries beyond its rows. */
  function Excess(): Step -> int {
    (step: Step) => if step.Pay? then PaymentTotal(step.dtos) - StoredTotal(step.dtos) else 0
  }

  lemma PaymentsGrow(s: State, step: Step, s': State)
    requires Next(s, step, s')
    ensures Sum(PaymentAmount(), s'.ap.payments)
         == Sum(PaymentAmount(), s.ap.payments) + if step.Pay? then PaymentTotal(step.dtos) else 0
  {
    if step.Pay? {
      SumAppend(PaymentAmount(), s.ap.payments, Payment(step.supplier, PaymentTotal(step.dtos)));
    }
  }

  lemma PaidSumGrows(s: State, step: Step, s': State)
    requires Inv(s.ap) && Next(s, step, s')
    ensures Sum(PaidAmount(), s'.ap.txs)
              == Sum(PaidAmount(), s.ap.txs) + if step.Pay? then StoredTotal(step.dtos) else 0
  {
    match step
    case Invoice(supplier, total) =>
      SumAppend(PaidAmount(), s.ap.txs, ApTransaction(|s.ap.invoices|, supplier, total, 0, TxOpen));
    case Pay(supplier, dtos) => PaysGrows(s.ap, supplier, dtos, s'.ap);
    case _ =>
  }

  lemma PaysGrows(s: Ap, supplier: Id, dtos: seq<AllocationDto>, s': Ap)
    requires Pays(s, supplier, dtos, s') && PassesChecks(s, supplier, dtos)
    ensures Sum(PaidAmount(), s'.txs) == Sum(PaidAmount(), s.txs) + StoredTotal(dtos)
  {
    assert forall a | a in dtos :: Payable(s, supplier, a);
    PaidGrows(PaidAmount(), s.txs, s'.txs, dtos);
  }

  /** Over every history payments and paid amounts differ by exactly the sum of what
      rounding left in each request, so they have one total if and only if that sum
      is zero, and always with at most four decimals. */
  lemma {:induction false} PaymentsVersusPaid(states: seq<State>, steps: seq<Step>)
    requires Trace(states, steps)
    ensures Sum(PaymentAmount(), states[|steps|].ap.payments)
         == Sum(PaidAmount(), states[|steps|].ap.txs) + Sum(Excess(), steps)
    ensures WholePayments(steps) ==>
              Sum(PaymentAmount(), states[|steps|].ap.payments) == Sum(PaidAmount(), states[|steps|].ap.txs)
    decreases steps
  {
    if steps != [] {
      var n := |steps| - 1;
      assert Trace(states[..n + 1], steps[..n]);
      PaymentsVersusPaid(states[..n + 1], steps[..n]);
      HistoryKeepsInv(states[..n + 1], steps[..n]);
      PaymentsGrow(states[n], steps[n], states[n + 1]);
      PaidSumGrows(states[n], steps[n], states[n + 1]);
    }
    NoExcess(steps);
  }

  predicate WholePayments(steps: seq<Step>) {
    forall step | step in steps && step.Pay? :: WholeAmounts(step.dtos)
  }

  lemma NoExcess(steps: seq<Step>)
    ensures WholePayments(steps) ==> Sum(Excess(), steps) == 0
  {
    if WholePayments(steps) {
      forall step | step in steps ensures Excess()(step) == 0 {
        if step.Pay? {
          PaymentVersusRows(step.dtos);
        }
      }
      SumZero(Excess(), steps);
    }
  }

  function UnpaidPair(supplier: Id): Ap {
    Ap([VendorInvoice(1000000, 0, Unpaid), VendorInvoice(1000000, 0, Unpaid)],
       [ApTransaction(0, supplier, 1000000, 0, TxOpen), ApTransaction(1, supplier, 1000000, 0, TxOpen)], [], [])
  }

  function PaidPair(supplier: Id): Ap {
    Ap([VendorInvoice(1000000, 333334, Partial), VendorInvoice(1000000, 333334, Partial)],
       [ApTransaction(0, supplier, 1000000, 333334, TxPartial), ApTransaction(1, supplier, 1000000, 333334, TxPartial)],
       Rows(TwoHalves(0, 1), 0), [Payment(supplier, 666667)])
  }

  lemma PairPasses(supplier: Id)
    ensures PassesChecks(UnpaidPair(supplier), supplier, TwoHalves(0, 1))
    ensures WithinOutstanding(UnpaidPair(supplier), TwoHalves(0, 1)) && Positive(TwoHalves(0, 1))
  {
    var s, dtos := UnpaidPair(supplier), TwoHalves(0, 1);
    forall a | a in dtos
      ensures Payable(s, supplier, a) && a.amount <= (Outstanding(s.txs[a.target]) + TOLERANCE) as real
                && InvoiceLive(s, a)
      ensures Nearest(a.amount) <= Outstanding(s.txs[a.target])
    {
      assert a == dtos[0] || a == dtos[1];
    }
  }

  lemma HalvesFor(t: nat)
    requires t < 2
    ensures AmountFor(TwoHalves(0, 1), t) == 333334
  {
    AmountForDistinct(TwoHalves(0, 1), t);
    assert TwoHalves(0, 1)[t] in TwoHalves(0, 1);
  }

  lemma PairIsPaid(supplier: Id)
    ensures Pays(UnpaidPair(supplier), supplier, TwoHalves(0, 1), PaidPair(supplier))
  {
    TwoHalvesDrift(0, 1);
    HalvesFor(0);
    HalvesFor(1);
  }

  lemma PairTotals(supplier: Id)
    ensures Sum(PaymentAmount(), PaidPair(supplier).payments) == 666667
    ensures Sum(PaidAmount(), PaidPair(supplier).txs) == 666668
  {
    var s := PaidPair(supplier);
    SumOne(PaymentAmount(), s.payments, s.payments[0]);
    assert s.txs == [s.txs[0]] + [s.txs[1]];
    SumOne(PaidAmount(), [s.txs[0]], s.txs[0]);
    SumAppend(PaidAmount(), [s.txs[0]], s.txs[1]);
  }

  /** Within reach: two allocations of 33.33335 are paid as 66.6668 by a payment of 66.6667. */
  lemma PaymentsMayDiffer(supplier: Id) returns (states: seq<State>, steps: seq<Step>)
    ensures Trace(states, steps)
    ensures Sum(PaymentAmount(), states[|steps|].ap.payments) == 666667
              && Sum(PaidAmount(), states[|steps|].ap.txs) == 666668
  {
    var invoice, tx := VendorInvoice(1000000, 0, Unpaid), ApTransaction(0, supplier, 1000000, 0, TxOpen);
    var one := State(Ap([invoice], [tx], [], []), {});
    PairPasses(supplier);
    PairIsPaid(supplier);
    PairTotals(supplier);
    var paid := State(PaidPair(supplier), {});
    assert Next(State(UnpaidPair(supplier), {}), Pay(supplier, TwoHalves(0, 1)), paid);
    states := [State(Ap([], [], [], []), {}), one, State(UnpaidPair(supplier), {}), paid];
    steps := [Invoice(supplier, 1000000), Invoice(supplier, 1000000), Pay(supplier, TwoHalves(0, 1))];
    assert Next(states[0], steps[0], states[1]) && Next(states[1], steps[1], states[2]);
  }

  /** A cancelled invoice is never paid or revived afterwards. */
  lemma {:induction false} CancelledForever(states: seq<State>, steps: seq<Step>, i: nat, v: nat)
    requires Trace(states, steps) && i <= |steps|
    requires v < |states[i].ap.invoices| && states[i].ap.invoices[v].status == Cancelled
    ensures v < |states[|steps|].ap.invoices| && states[|steps|].ap.invoices[v] == states[i].ap.invoices[v]
    decreases steps
  {
    if i < |steps| {
      var n := |steps| - 1;
      assert Trace(states[..n + 1], steps[..n]);
      CancelledForever(states[..n + 1], steps[..n], i, v);
      HistoryKeepsInv(states[..n + 1], steps[..n]);
      var s := states[n].ap;
      assert Next(states[n], steps[n], states[n + 1]);
      assert HasTransaction(s.txs, v);
      var t :| 0 <= t < |s.txs| && s.txs[t].invoice == v;
      if steps[n].Pay? {
        AmountForDistinct(steps[n].dtos, t);
        assert forall a | a in steps[n].dtos :: InvoiceLive(s, a);
      }
    }
  }

  // ------------------------------------------------------------------
  // The services
  // ------------------------------------------------------------------

  /** The loop of createPayment before allocation `i`. */
  ghost predicate Progress(s: Ap, dtos: seq<AllocationDto>, i: nat, cur: Ap)
    requires i <= |dtos|
  {
    && cur.allocations == s.allocations + Rows(dtos[..i], |s.payments|)
    && WithinOutstanding(s, dtos[..i])
    && Settled(s, dtos[..i], cur.txs, cur.invoices)
  }

  /** One pass of the allocation loop: insert the row, sum all rows of the
      transaction, then write that sum and its status to both tables. */
  function AfterOne(cur: Ap, payment: nat, a: AllocationDto): Ap
    requires a.target < |cur.txs| && cur.txs[a.target].invoice < |cur.invoices|
  {
    var t, v := a.target, cur.txs[a.target].invoice;
    var allocs := cur.allocations + [Allocation(payment, t, Nearest(a.amount))];
    var paid := Sum(AllocatedTo(t), allocs);
    var status := TxStatusFor(paid, cur.txs[t].amount);
    Ap(cur.invoices[v := cur.invoices[v].(paid := paid, status := InvoiceStatusFor(status))],
       cur.txs[t := cur.txs[t].(paid := paid, status := status)], allocs, cur.payments)
  }

  ghost predicate Requestable(s: Ap, dtos: seq<AllocationDto>) {
    Inv(s) && DistinctTargets(dtos) && forall i | 0 <= i < |dtos| :: dtos[i].amount >= 1.0 && dtos[i].target < |s.txs|
  }

  lemma ProgressReads(s: Ap, dtos: seq<AllocationDto>, i: nat, cur: Ap)
    requires Requestable(s, dtos) && i < |dtos| && Progress(s, dtos, i, cur)
    ensures var t := dtos[i].target;
            && t < |cur.txs| && cur.txs[t].invoice < |cur.invoices|
            && cur.txs[t] == s.txs[t] && cur.invoices[cur.txs[t].invoice] == s.invoices[s.txs[t].invoice]
            && cur.invoices[cur.txs[t].invoice].total == cur.txs[t].amount
            && AfterOne(cur, |s.payments|, dtos[i]).txs[t].paid == s.txs[t].paid + Nearest(dtos[i].amount)
  {
    PaidAfter(s, dtos, i, cur.txs, cur.invoices);
    assert s.allocations + Rows(dtos[..i + 1], |s.payments|)
        == cur.allocations + [Allocation(|s.payments|, dtos[i].target, Nearest(dtos[i].amount))];
  }

  lemma WithinNext(s: Ap, dtos: seq<AllocationDto>, i: nat)
    requires i < |dtos| && WithinOutstanding(s, dtos[..i])
    requires dtos[i].target < |s.txs| && Nearest(dtos[i].amount) <= Outstanding(s.txs[dtos[i].target])
    ensures WithinOutstanding(s, dtos[..i + 1])
  {
    assert dtos[..i + 1] == dtos[..i] + [dtos[i]];
  }

  lemma RowsNext(dtos: seq<AllocationDto>, i: nat, payment: nat, before: seq<Allocation>)
    requires i < |dtos|
    ensures before + Rows(dtos[..i + 1], payment)
         == before + Rows(dtos[..i], payment) + [Allocation(payment, dtos[i].target, Nearest(dtos[i].amount))]
  {
  }

  lemma ProgressStep(s: Ap, dtos: seq<AllocationDto>, i: nat, cur: Ap)
    requires Requestable(s, dtos) && i < |dtos| && Progress(s, dtos, i, cur)
    requires Nearest(dtos[i].amount) <= Outstanding(s.txs[dtos[i].target])
    requires dtos[i].target < |cur.txs| && cur.txs[dtos[i].target].invoice < |cur.invoices|
    ensures Progress(s, dtos, i + 1, AfterOne(cur, |s.payments|, dtos[i]))
  {
    ProgressReads(s, dtos, i, cur);
    SettledNext(s, dtos, i, cur.txs, cur.invoices);
    RowsNext(dtos, i, |s.payments|, s.allocations);
    WithinNext(s, dtos, i);
  }

  /** The allocation loop under the paid-amount constraints of both tables. */
  method Settle(s: Ap, dtos: seq<AllocationDto>) returns (cur: Ap, ok: bool)
    requires Requestable(s, dtos)
    ensures ok <==> WithinOutstanding(s, dtos)
    ensures ok ==> Progress(s, dtos, |dtos|, cur)
  {
    cur, ok := s, true;
    ProgressStart(s, dtos);
    for i := 0 to |dtos|
      invariant Progress(s, dtos, i, cur)
    {
      ProgressReads(s, dtos, i, cur);
      var t := dtos[i].target;
      var next := AfterOne(cur, |s.payments|, dtos[i]);
      if next.txs[t].paid > cur.txs[t].amount || next.txs[t].paid > cur.invoices[cur.txs[t].invoice].total {
        assert dtos[i] in dtos;
        return cur, false;
      }
      ProgressStep(s, dtos, i, cur);
      cur := next;
    }
    assert dtos[..|dtos|] == dtos;
  }

  lemma ProgressStart(s: Ap, dtos: seq<AllocationDto>)
    ensures Progress(s, dtos, 0, s)
  {
    assert dtos[..0] == [] && s.allocations + Rows([], |s.payments|) == s.allocations;
  }

  /** The checks of createPayment, in its order. */
  method Objection(s: Ap, supplier: Id, dtos: seq<AllocationDto>, seen: seq<seq<ApTransaction>>, sourceFound: bool,
                   periodFound: bool)
    returns (e: Option<Error>)
    requires |seen| == |dtos|
    requires forall t | 0 <= t < |s.txs| :: s.txs[t].invoice < |s.invoices|
    ensures e.None? <==>
            sourceFound && periodFound && SeenAdmits(seen, supplier, dtos) && PassesChecks(s, supplier, dtos)
  {
    if dtos == [] {
      return Some(NoAllocations);
    }
    if !DistinctTargets(dtos) {
      return Some(DuplicateTransaction);
    }
    for i := 0 to |dtos|
      invariant forall k | 0 <= k < i ::
        && dtos[k].target < |seen[k]| && seen[k][dtos[k].target].supplier == supplier
        && seen[k][dtos[k].target].status != TxPaid
            && dtos[k].amount <= (Outstanding(seen[k][dtos[k].target]) + TOLERANCE) as real
    {
      var table, a := seen[i], dtos[i];
      if a.target >= |table| || table[a.target].supplier != supplier || table[a.target].status == TxPaid {
        return Some(NotFound);
      }
      if a.amount > (Outstanding(table[a.target]) + TOLERANCE) as real {
        return Some(ExceedsOutstanding);
      }
    }
    if !sourceFound {
      return Some(SourceNotFound);
    }
    if !periodFound {
      return Some(NoPeriod);
    }
    for i := 0 to |dtos|
      invariant forall k | 0 <= k < i ::
        Payable(s, supplier, dtos[k]) && dtos[k].amount <= (Outstanding(s.txs[dtos[k].target]) + TOLERANCE) as real
    {
      assert dtos[i] in dtos;
      if !Payable(s, supplier, dtos[i]) {
        return Some(NotFound);
      }
      if dtos[i].amount > (Outstanding(s.txs[dtos[i].target]) + TOLERANCE) as real {
        return Some(ExceedsOutstanding);
      }
    }
    if exists a | a in dtos :: !InvoiceLive(s, a) {
      return Some(InvoiceCancelled);
    }
    e := None;
  }

  class Tables {
    var invoices: seq<VendorInvoice>
    var txs: seq<ApTransaction>
    var allocations: seq<Allocation>
    var payments: seq<Payment>

    function View(): Ap
      reads this
    {
      Ap(invoices, txs, allocations, payments)
    }

    constructor ()
      ensures Inv(View()) && View() == Ap([], [], [], [])
    {
      invoices, txs, allocations, payments := [], [], [], [];
    }

    /** The whole service call, with its journal: payables against the account the
        money comes from, in a period looked up beforehand. It commits exactly when
        that account and period were found, the earlier reads and the checks admit the
        request, no stored allocation exceeds what is outstanding, and the period
        still takes the moment. The extra 0.01 that the checks admit is refused by the
        table constraints. */
    method CreatePayment(supplier: Id, dtos: seq<AllocationDto>, seen: seq<seq<ApTransaction>>,
                         books: Books.Books, ap: Id, source: Option<Id>, period: Option<nat>, at: int,
                         number: Books.JournalNumber)
      returns (r: Result<nat, Error>, books': Books.Books)
      requires Inv(View()) && |seen| == |dtos| && Positive(dtos)
      modifies this
      ensures Inv(View())
      ensures r.Ok? <==> && source.Some? && period.Some? && SeenAdmits(seen, supplier, dtos)
                         && PassesChecks(old(View()), supplier, dtos) && WithinOutstanding(old(View()), dtos)
                         && BooksInvariant.Takes(books, period.value, at)
      ensures r.Ok? ==> r.value == |old(payments)| && Pays(old(View()), supplier, dtos, View())
      ensures r.Ok? ==>
                Books.CreateAndPost(books, TwoLegs(ap, source.value, RawTotal(dtos), period.value, at, None), number)
                        == Ok(books')
      ensures r.Err? ==> View() == old(View()) && books' == books
    {
      books' := books;
      var after, objection := PaySupplier(View(), supplier, dtos, seen, source.Some?, period.Some?);
      if objection.Some? {
        return Err(objection.value), books';
      }
      var posted := PostPayment(books, dtos, ap, source.value, period.value, at, number);
      if posted.None? {
        return Err(JournalRejected), books';
      }
      r, books' := Ok(|payments|), posted.value;
      invoices, txs, allocations, payments := after.invoices, after.txs, after.allocations, after.payments;
    }
  }

  /** The rows of createPayment's transaction: its checks and its allocation loop. */
  method PaySupplier(s: Ap, supplier: Id, dtos: seq<AllocationDto>, seen: seq<seq<ApTransaction>>, sourceFound: bool,
                     periodFound: bool)
    returns (after: Ap, e: Option<Error>)
    requires Inv(s) && |seen| == |dtos| && Positive(dtos)
    ensures e.None? <==> sourceFound && periodFound && SeenAdmits(seen, supplier, dtos)
                         && PassesChecks(s, supplier, dtos) && WithinOutstanding(s, dtos)
    ensures e.None? ==> Pays(s, supplier, dtos, after) && Inv(after)
  {
    after := s;
    e := Objection(s, supplier, dtos, seen, sourceFound, periodFound);
    if e.None? {
      assert forall i | 0 <= i < |dtos| :: dtos[i] in dtos;
      var settled, ok := Settle(s, dtos);
      if ok {
        after := settled.(payments := s.payments + [Payment(supplier, PaymentTotal(dtos))]);
        assert dtos[..|dtos|] == dtos;
        PaysKeepsInv(s, supplier, dtos, after);
      } else {
        e := Some(CheckViolation);
      }
    }
  }

  method PostPayment(books: Books.Books, dtos: seq<AllocationDto>, ap: Id, source: Id, period: nat, at: int,
                     number: Books.JournalNumber)
    returns (r: Option<Books.Books>)
    requires dtos != [] && Positive(dtos)
    ensures r.Some? <==> BooksInvariant.Takes(books, period, at)
    ensures r.Some? ==>
              Books.CreateAndPost(books, TwoLegs(ap, source, RawTotal(dtos), period, at, None), number) == Ok(r.value)
  {
    PaymentPosts(books, dtos, ap, source, period, at, number);
    var posted := Books.CreateAndPost(books, TwoLegs(ap, source, RawTotal(dtos), period, at, None), number);
    r := if posted.Ok? then Some(posted.value) else None;
  }

  /** A payment's journal is accepted exactly when its period is open and covers the moment. */
  lemma PaymentPosts(books: Books.Books, dtos: seq<AllocationDto>, ap: Id, source: Id, period: nat, at: int,
                     number: Books.JournalNumber)
    requires dtos != [] && Positive(dtos)
    ensures Books.CreateAndPost(books, TwoLegs(ap, source, RawTotal(dtos), period, at, None), number).Ok?
            <==> BooksInvariant.Takes(books, period, at)
  {
    PositiveTotal(dtos);
    TwoLegsPostable(ap, source, RawTotal(dtos));
    BooksInvariant.CreateAndPostIff(books, TwoLegs(ap, source, RawTotal(dtos), period, at, None), number);
  }

  /** Both tables after the allocations `dtos`, seen from the state `s` before them. */
  ghost predicate Settled(s: Ap, dtos: seq<AllocationDto>, rows: seq<ApTransaction>, invs: seq<VendorInvoice>)
  {
    && |rows| == |s.txs| && |invs| == |s.invoices|
    && forall t | 0 <= t < |s.txs| && s.txs[t].invoice < |s.invoices| ::
         && rows[t] == PayTx(s.txs[t], AmountFor(dtos, t))
         && invs[s.txs[t].invoice] == PayInvoice(s.invoices[s.txs[t].invoice], s.txs[t], AmountFor(dtos, t))
  }

  /** The next allocation is the first for its transaction and leaves the others' amounts alone. */
  lemma SettleStep(dtos: seq<AllocationDto>, i: nat, t: nat)
    requires DistinctTargets(dtos) && i < |dtos| && t == dtos[i].target
    ensures AmountFor(dtos[..i], t) == 0 && AmountFor(dtos[..i + 1], t) == Nearest(dtos[i].amount)
    ensures forall u: nat | u != t :: AmountFor(dtos[..i + 1], u) == AmountFor(dtos[..i], u)
  {
    assert dtos[..i + 1] == dtos[..i] + [dtos[i]];
    SumZero(RequestedFor(t), dtos[..i]);
    forall u: nat ensures AmountFor(dtos[..i + 1], u) == AmountFor(dtos[..i], u) + RequestedFor(u)(dtos[i]) {
      SumAppend(RequestedFor(u), dtos[..i], dtos[i]);
    }
  }

  /** What the sum over the allocation rows reads for the transaction at hand. */
  lemma PaidAfter(s: Ap, dtos: seq<AllocationDto>, i: nat, rows: seq<ApTransaction>, invs: seq<VendorInvoice>)
    requires Inv(s) && DistinctTargets(dtos) && i < |dtos| && dtos[i].target < |s.txs|
    requires Settled(s, dtos[..i], rows, invs)
    ensures var t := dtos[i].target;
            && rows[t] == s.txs[t] && invs[rows[t].invoice] == s.invoices[s.txs[t].invoice]
            && Sum(AllocatedTo(t), s.allocations + Rows(dtos[..i + 1], |s.payments|))
                == s.txs[t].paid + Nearest(dtos[i].amount)
            && invs[rows[t].invoice].total == rows[t].amount
  {
    var t := dtos[i].target;
    assert TxOk(s, t);
    SettleStep(dtos, i, t);
    RowsSums(dtos[..i + 1], |s.payments|, t);
    SumConcat(AllocatedTo(t), s.allocations, Rows(dtos[..i + 1], |s.payments|));
  }

  lemma SettledNext(s: Ap, dtos: seq<AllocationDto>, i: nat, rows: seq<ApTransaction>, invs: seq<VendorInvoice>)
    requires Inv(s) && DistinctTargets(dtos) && i < |dtos| && dtos[i].target < |s.txs| && dtos[i].amount >= 1.0
    requires Settled(s, dtos[..i], rows, invs)
    ensures var t := dtos[i].target;
            var paid := s.txs[t].paid + Nearest(dtos[i].amount);
            var status := TxStatusFor(paid, s.txs[t].amount);
            Settled(s, dtos[..i + 1], rows[t := s.txs[t].(paid := paid, status := status)],
                    invs[s.txs[t].invoice := s.invoices[s.txs[t].invoice].(paid := paid,
                        status := InvoiceStatusFor(status))])
  {
    SettleStep(dtos, i, dtos[i].target);
  }
}
