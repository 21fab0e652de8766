/** Accounts receivable: payment receipts spread over customer invoices. */
module Receipts {
  import opened Common
  import opened Sums
  import opened Rounding
  import opened Allocations
  import opened Entries
  import Books
  import BooksInvariant

  datatype InvoiceStatus = Unpaid | Partial | Paid

  datatype Invoice = Invoice(customer: Id, total: int, paid: int, status: InvoiceStatus)

  datatype Receipt = Receipt(customer: Id, amount: int)

  /** Tables in insertion order. `bounded` says whether the migration that limits
      paid_amount to total_amount has been applied to the tenant. */
  datatype Ar = Ar(bounded: bool, invoices: seq<Invoice>, allocations: seq<Allocation>, receipts: seq<Receipt>)

  datatype Error =
    CustomerNotFound | NoAllocations | DuplicateInvoice | NotFound | ExceedsOutstanding | CheckViolation
    | JournalRejected

  function ReceiptAmount(): Receipt -> int { (r: Receipt) => r.amount }

  function PaidAmount(): Invoice -> int { (v: Invoice) => v.paid }

  predicate Collectable(s: Ar, customer: Id, a: AllocationDto) {
    && a.target < |s.invoices|
    && s.invoices[a.target].customer == customer
    && s.invoices[a.target].status != Paid
  }

  function Outstanding(v: Invoice): int { v.total - v.paid }

  /** The checks made on the locked invoices, with the given tolerance. */
  predicate Admits(s: Ar, customer: Id, dtos: seq<AllocationDto>, tolerance: int) {
    && dtos != [] && DistinctTargets(dtos)
    && forall a | a in dtos ::
         Collectable(s, customer, a) && a.amount <= (Outstanding(s.invoices[a.target]) + tolerance) as real
  }

  /** What the constraint demands, where it has been added. */
  predicate Within(s: Ar, dtos: seq<AllocationDto>) {
    s.bounded ==>
      forall a | a in dtos :: a.target < |s.invoices| && Nearest(a.amount) <= Outstanding(s.invoices[a.target])
  }

  /** The reads before the transaction: `seen[i]` is the invoice table as the i-th of
      them found it. Here no excess at all is admitted. */
  predicate SeenAdmits(seen: seq<seq<Invoice>>, customer: Id, dtos: seq<AllocationDto>)
    requires |seen| == |dtos|
  {
    forall i | 0 <= i < |dtos| ::
      && dtos[i].target < |seen[i]| && seen[i][dtos[i].target].customer == customer
      && seen[i][dtos[i].target].status != Paid && dtos[i].amount <= Outstanding(seen[i][dtos[i].target]) as real
  }

  /** When nothing changes between those reads and the locks, they decide alone. */
  lemma UndisturbedAdmits(s: Ar, customer: Id, dtos: seq<AllocationDto>, seen: seq<seq<Invoice>>)
    requires |seen| == |dtos| && dtos != [] && DistinctTargets(dtos)
    requires forall i | 0 <= i < |seen| :: seen[i] == s.invoices
    ensures SeenAdmits(seen, customer, dtos) <==> Admits(s, customer, dtos, 0)
    ensures SeenAdmits(seen, customer, dtos) ==> Admits(s, customer, dtos, TOLERANCE) && Within(s, dtos)
  {
    if SeenAdmits(seen, customer, dtos) {
      forall a | a in dtos ensures a.target < |s.invoices| && Nearest(a.amount) <= Outstanding(s.invoices[a.target]) {
        var i :| 0 <= i < |dtos| && dtos[i] == a;
        NearestWithin(a.amount, Outstanding(s.invoices[a.target]));
      }
    }
    if Admits(s, customer, dtos, 0) {
      assert forall i | 0 <= i < |dtos| :: dtos[i] in dtos;
    }
  }

  function PaymentReference(id: nat): Books.Reference { Books.Reference("payment_receipt", id) }

  /** How far a paid amount may exceed the invoice. */
  function Slack(s: Ar): int { if s.bounded then 0 else TOLERANCE }

  function StatusFor(paid: int, total: int): InvoiceStatus {
    if paid >= total then Paid else if paid > 0 then Partial else Unpaid
  }

  function WithPaid(v: Invoice, paid: int): Invoice { v.(paid := paid, status := StatusFor(paid, v.total)) }

  predicate Requested(dtos: seq<AllocationDto>, v: nat) { exists a :: a in dtos && a.target == v }

  /** Each requested invoice grows by its allocation; nothing else changes. */
  ghost predicate Receives(s: Ar, customer: Id, dtos: seq<AllocationDto>, s': Ar) {
    && s'.bounded == s.bounded && |s'.invoices| == |s.invoices|
    && (forall v | 0 <= v < |s.invoices| ::
          s'.invoices[v] == if Requested(dtos, v) then WithPaid(s.invoices[v], s.invoices[v].paid + AmountFor(dtos, v))
                            else s.invoices[v])
    && s'.allocations == s.allocations + Rows(dtos, |s.receipts|)
    && s'.receipts == s.receipts + [Receipt(customer, PaymentTotal(dtos))]
  }

  ghost predicate InvoiceOk(s: Ar, v: nat)
    requires v < |s.invoices|
  {
    var i := s.invoices[v];
    && i.paid == Sum(AllocatedTo(v), s.allocations)
    && 0 <= i.paid <= i.total + Slack(s)
    && (match i.status case Paid => i.paid >= i.total case Partial => 0 < i.paid < i.total case Unpaid => i.paid == 0)
  }

  ghost predicate Inv(s: Ar) {
    && (forall v | 0 <= v < |s.invoices| :: InvoiceOk(s, v))
    && (forall a | a in s.allocations :: a.target < |s.invoices| && a.payment < |s.receipts|)
    && (forall p | 0 <= p < |s.receipts| :: AmountOk(s.receipts[p].amount, s.allocations, p))
    && Sum(PaidAmount(), s.invoices) == Sum(AllocationAmount(), s.allocations)
  }

  lemma ReceivesKeepsInvoice(s: Ar, customer: Id, dtos: seq<AllocationDto>, s': Ar, v: nat)
    requires Inv(s) && Admits(s, customer, dtos, TOLERANCE) && Within(s, dtos) && Receives(s, customer, dtos, s')
    requires v < |s.invoices|
    requires Positive(dtos)
    ensures InvoiceOk(s', v) && s'.invoices[v].paid == s.invoices[v].paid + AmountFor(dtos, v)
  {
    AmountForDistinct(dtos, v);
    RowsSums(dtos, |s.receipts|, v);
    SumConcat(AllocatedTo(v), s.allocations, Rows(dtos, |s.receipts|));
    assert InvoiceOk(s, v);
    if a :| a in dtos && a.target == v {
      NearestWithin(a.amount, Outstanding(s.invoices[v]) + TOLERANCE);
    }
  }

  lemma ReceivesKeepsReceipts(s: Ar, customer: Id, dtos: seq<AllocationDto>, s': Ar, p: nat)
    requires Inv(s) && Receives(s, customer, dtos, s') && p < |s'.receipts|
    ensures AmountOk(s'.receipts[p].amount, s'.allocations, p)
  {
    NewRowsAreOk(Values(ReceiptAmount(), s.receipts), s.allocations, dtos, p);
  }

  lemma ReceivesKeepsTotals(s: Ar, customer: Id, dtos: seq<AllocationDto>, s': Ar)
    requires Inv(s) && Receives(s, customer, dtos, s')
    requires forall a | a in dtos :: a.target < |s.invoices|
    requires forall v | 0 <= v < |s.invoices| :: s'.invoices[v].paid == s.invoices[v].paid + AmountFor(dtos, v)
    ensures Sum(AllocationAmount(), s'.allocations) == Sum(PaidAmount(), s'.invoices)
  {
    var n := |s.receipts|;
    RowsSums(dtos, n, 0);
    SumConcat(AllocationAmount(), s.allocations, Rows(dtos, n));
    PaidGrows(PaidAmount(), s.invoices, s'.invoices, dtos);
  }

  lemma ReceivesKeepsRows(s: Ar, customer: Id, dtos: seq<AllocationDto>, s': Ar)
    requires Inv(s) && Receives(s, customer, dtos, s')
    requires forall a | a in dtos :: a.target < |s.invoices|
    ensures forall a | a in s'.allocations :: a.target < |s'.invoices| && a.payment < |s'.receipts|
  {
    var rows := Rows(dtos, |s.receipts|);
    forall a | a in s'.allocations ensures a.target < |s'.invoices| && a.payment < |s'.receipts| {
      if a !in s.allocations {
        var i :| 0 <= i < |rows| && rows[i] == a;
        assert dtos[i] in dtos;
      }
    }
  }

  lemma ReceivesKeepsInv(s: Ar, customer: Id, dtos: seq<AllocationDto>, s': Ar)
    requires Inv(s) && Admits(s, customer, dtos, TOLERANCE) && Within(s, dtos) && Receives(s, customer, dtos, s')
    requires Positive(dtos)
    ensures Inv(s')
  {
    forall v | 0 <= v < |s.invoices|
      ensures InvoiceOk(s', v) && s'.invoices[v].paid == s.invoices[v].paid + AmountFor(dtos, v)
    {
      ReceivesKeepsInvoice(s, customer, dtos, s', v);
    }
    forall p | 0 <= p < |s'.receipts| ensures AmountOk(s'.receipts[p].amount, s'.allocations, p) {
      ReceivesKeepsReceipts(s, customer, dtos, s', p);
    }
    ReceivesKeepsTotals(s, customer, dtos, s');
    ReceivesKeepsRows(s, customer, dtos, s');
  }

  datatype Step = Bill(customer: Id, total: int) | Receive(customer: Id, dtos: seq<AllocationDto>)

  ghost predicate Next(s: Ar, step: Step, s': Ar) {
    match step
    case Bill(customer, total) =>
      total >= 0 && s' == s.(invoices := s.invoices + [Invoice(customer, total, 0, Unpaid)])
    case Receive(customer, dtos) =>
      && Admits(s, customer, dtos, TOLERANCE) && Within(s, dtos) && Positive(dtos)
      && Receives(s, customer, dtos, s')
  }

  lemma StepKeepsInv(s: Ar, step: Step, s': Ar)
    requires Inv(s) && Next(s, step, s')
    ensures Inv(s')
  {
    match step
    case Receive(customer, dtos) => ReceivesKeepsInv(s, customer, dtos, s');
    case Bill(customer, total) =>
      var n := |s.invoices|;
      SumAppend(PaidAmount(), s.invoices, Invoice(customer, total, 0, Unpaid));
      SumZero(AllocatedTo(n), s.allocations);
      forall v | 0 <= v < |s'.invoices| ensures InvoiceOk(s', v) {
        if v < n {
          assert InvoiceOk(s, v);
        }
      }
  }

  ghost predicate Trace(bounded: bool, states: seq<Ar>, steps: seq<Step>) {
    && |states| == |steps| + 1
    && states[0] == Ar(bounded, [], [], [])
    && forall i | 0 <= i < |steps| :: Next(states[i], steps[i], states[i + 1])
  }

  /** Over every history the paid amount is the sum of the stored allocations and
      exceeds the invoice by at most 0.01 over all its receipts together, by nothing
      once the constraint is in place; a receipt and its rows differ by no more than
      rounding explains. */
  lemma {:induction false} HistoryKeepsInv(bounded: bool, states: seq<Ar>, steps: seq<Step>)
    requires Trace(bounded, states, steps)
    ensures Inv(states[|steps|]) && states[|steps|].bounded == bounded
    decreases steps
  {
    if steps != [] {
      var n := |steps| - 1;
      assert Trace(bounded, states[..n + 1], steps[..n]);
      HistoryKeepsInv(bounded, states[..n + 1], steps[..n]);
      StepKeepsInv(states[n], steps[n], states[n + 1]);
    }
  }

  /** What a step's receipt carries beyond its rows. */
  function Excess(): Step -> int {
    (step: Step) => if step.Receive? then PaymentTotal(step.dtos) - StoredTotal(step.dtos) else 0
  }

  predicate WholeReceipts(steps: seq<Step>) {
    forall step | step in steps && step.Receive? :: WholeAmounts(step.dtos)
  }

  lemma NoExcess(steps: seq<Step>)
    ensures WholeReceipts(steps) ==> Sum(Excess(), steps) == 0
  {
    if WholeReceipts(steps) {
      forall step | step in steps ensures Excess()(step) == 0 {
        if step.Receive? {
          PaymentVersusRows(step.dtos);
        }
      }
      SumZero(Excess(), steps);
    }
  }

  lemma TotalsGrow(s: Ar, step: Step, s': Ar)
    requires Inv(s) && Next(s, step, s')
    ensures Sum(ReceiptAmount(), s'.receipts)
         == Sum(ReceiptAmount(), s.receipts) + if step.Receive? then PaymentTotal(step.dtos) else 0
    ensures Sum(PaidAmount(), s'.invoices)
         == Sum(PaidAmount(), s.invoices) + if step.Receive? then StoredTotal(step.dtos) else 0
  {
    match step
    case Bill(customer, total) => SumAppend(PaidAmount(), s.invoices, Invoice(customer, total, 0, Unpaid));
    case Receive(customer, dtos) =>
      SumAppend(ReceiptAmount(), s.receipts, Receipt(customer, PaymentTotal(dtos)));
      ReceivedSum(s, customer, dtos, s');
  }

  lemma ReceivedSum(s: Ar, customer: Id, dtos: seq<AllocationDto>, s': Ar)
    requires Inv(s) && Admits(s, customer, dtos, TOLERANCE) && Within(s, dtos) && Receives(s, customer, dtos, s')
    requires Positive(dtos)
    ensures Sum(PaidAmount(), s'.invoices) == Sum(PaidAmount(), s.invoices) + StoredTotal(dtos)
  {
    forall v | 0 <= v < |s.invoices| ensures s'.invoices[v].paid == s.invoices[v].paid + AmountFor(dtos, v) {
      ReceivesKeepsInvoice(s, customer, dtos, s', v);
    }
    assert forall a | a in dtos :: Collectable(s, customer, a);
    PaidGrows(PaidAmount(), s.invoices, s'.invoices, dtos);
  }

  /** What receipts carry beyond what is paid. */
  function Unmatched(s: Ar): int { Sum(ReceiptAmount(), s.receipts) - Sum(PaidAmount(), s.invoices) }

  lemma UnmatchedGrows(s: Ar, step: Step, s': Ar)
    requires Inv(s) && Next(s, step, s')
    ensures Unmatched(s') == Unmatched(s) + Excess()(step)
  {
    TotalsGrow(s, step, s');
  }

  /** Over every history receipts and paid amounts differ by exactly the sum of what
      rounding left in each request; with at most four decimals they have one total. */
  lemma {:induction false} ReceiptsVersusPaid(bounded: bool, states: seq<Ar>, steps: seq<Step>)
    requires Trace(bounded, states, steps)
    ensures Unmatched(states[|steps|]) == Sum(Excess(), steps)
    ensures WholeReceipts(steps) ==> Unmatched(states[|steps|]) == 0
    decreases steps
  {
    if steps != [] {
      var n := |steps| - 1;
      assert Trace(bounded, states[..n + 1], steps[..n]);
      ReceiptsVersusPaid(bounded, states[..n + 1], steps[..n]);
      HistoryKeepsInv(bounded, states[..n + 1], steps[..n]);
      UnmatchedGrows(states[n], steps[n], states[n + 1]);
    }
    NoExcess(steps);
  }

  class Tables {
    const bounded: bool
    var invoices: seq<Invoice>
    var allocations: seq<Allocation>
    var receipts: seq<Receipt>

    function View(): Ar
      reads this
    {
      Ar(bounded, invoices, allocations, receipts)
    }

    constructor (bounded: bool)
      ensures Inv(View()) && View() == Ar(bounded, [], [], [])
    {
      this.bounded := bounded;
      invoices, allocations, receipts := [], [], [];
    }

    /** The whole service call, with its journal: cash against receivables. It commits
        exactly when the customer is active, the reads before the transaction admit
        the request, the locked invoices do so within the tolerance and the
        constraint, and the active period that is found takes the journal. */
    method CreateReceipt(customer: Id, customerActive: bool, dtos: seq<AllocationDto>, seen: seq<seq<Invoice>>,
                         books: Books.Books, cash: Id, ar: Id, at: int, found: Option<nat>, number: Books.JournalNumber)
      returns (r: Result<nat, Error>, books': Books.Books)
      requires Inv(View()) && |seen| == |dtos| && Positive(dtos) && Found(books, at, found)
      modifies this
      ensures Inv(View())
      ensures r.Ok? <==> && customerActive && SeenAdmits(seen, customer, dtos)
                         && Admits(old(View()), customer, dtos, TOLERANCE) && Within(old(View()), dtos)
                         && PostsIn(books, at, found)
                         && Books.ReferenceFree(books, Some(PaymentReference(|old(receipts)|)))
      ensures r.Ok? ==> r.value == |old(receipts)| && Receives(old(View()), customer, dtos, View())
      ensures r.Ok? ==>
                Books.CreateAndPost(books, Entry(cash, ar, dtos, r.value, found.value, at), number) == Ok(books')
      ensures r.Err? ==> View() == old(View()) && books' == books
    {
      books' := books;
      if !customerActive {
        return Err(CustomerNotFound), books';
      }
      var after, objection := Collect(View(), customer, dtos, seen);
      if objection.Some? {
        return Err(objection.value), books';
      }
      var posted := PostReceipt(books, dtos, cash, ar, |receipts|, at, found, number);
      if posted.None? {
        return Err(JournalRejected), books';
      }
      r, books' := Ok(|receipts|), posted.value;
      invoices, allocations, receipts := after.invoices, after.allocations, after.receipts;
    }
  }

  function Entry(cash: Id, ar: Id, dtos: seq<AllocationDto>, id: nat, period: nat, at: int): Books.JournalDto {
    TwoLegs(cash, ar, RawTotal(dtos), period, at, Some(PaymentReference(id)))
  }

  /** The rows of the transaction: its checks and the loop over the invoices. */
  method Collect(s: Ar, customer: Id, dtos: seq<AllocationDto>, seen: seq<seq<Invoice>>)
    returns (after: Ar, e: Option<Error>)
    requires Inv(s) && |seen| == |dtos| && Positive(dtos)
    ensures e.None? <==> SeenAdmits(seen, customer, dtos) && Admits(s, customer, dtos, TOLERANCE) && Within(s, dtos)
    ensures e.None? ==> Receives(s, customer, dtos, after) && Inv(after)
  {
    after := s;
    e := Objection(s, customer, dtos, seen);
    if e.None? {
      assert forall i | 0 <= i < |dtos| :: dtos[i] in dtos;
      var invoices, ok := UpdatePaidAmounts(s, dtos);
      if ok {
        after := Ar(s.bounded, invoices, s.allocations + Rows(dtos, |s.receipts|),
                    s.receipts + [Receipt(customer, PaymentTotal(dtos))]);
        assert dtos[..|dtos|] == dtos;
        ReceivesKeepsInv(s, customer, dtos, after);
      } else {
        e := Some(CheckViolation);
      }
    }
  }

  method PostReceipt(books: Books.Books, dtos: seq<AllocationDto>, cash: Id, ar: Id, id: nat, at: int,
                     found: Option<nat>, number: Books.JournalNumber)
    returns (r: Option<Books.Books>)
    requires dtos != [] && Positive(dtos) && Found(books, at, found)
    ensures r.Some? <==> PostsIn(books, at, found) && Books.ReferenceFree(books, Some(PaymentReference(id)))
    ensures r.Some? ==> Books.CreateAndPost(books, Entry(cash, ar, dtos, id, found.value, at), number) == Ok(r.value)
  {
    PositiveTotal(dtos);
    TwoLegsPostable(cash, ar, RawTotal(dtos));
    var lines := BooksInvariant.RawTwoLines(cash, RawTotal(dtos), ar, RawTotal(dtos));
    r := PostInside(books, at, found, Some(PaymentReference(id)), lines, number);
  }

  /** The checks before the transaction and on the locked invoices, in their order. */
  method Objection(s: Ar, customer: Id, dtos: seq<AllocationDto>, seen: seq<seq<Invoice>>) returns (e: Option<Error>)
    requires |seen| == |dtos|
    ensures e.None? <==> SeenAdmits(seen, customer, dtos) && Admits(s, customer, dtos, TOLERANCE)
  {
    if dtos == [] {
      return Some(NoAllocations);
    }
    if !DistinctTargets(dtos) {
      return Some(DuplicateInvoice);
    }
    for i := 0 to |dtos|
      invariant forall k | 0 <= k < i ::
        && dtos[k].target < |seen[k]| && seen[k][dtos[k].target].customer == customer
        && seen[k][dtos[k].target].status != Paid && dtos[k].amount <= Outstanding(seen[k][dtos[k].target]) as real
    {
      var table, a := seen[i], dtos[i];
      if a.target >= |table| || table[a.target].customer != customer || table[a.target].status == Paid {
        return Some(NotFound);
      }
      if a.amount > Outstanding(table[a.target]) as real {
        return Some(ExceedsOutstanding);
      }
    }
    for i := 0 to |dtos|
      invariant forall k | 0 <= k < i ::
        Collectable(s, customer, dtos[k])
        && dtos[k].amount <= (Outstanding(s.invoices[dtos[k].target]) + TOLERANCE) as real
    {
      assert dtos[i] in dtos;
      if !Collectable(s, customer, dtos[i]) {
        return Some(NotFound);
      }
      if dtos[i].amount > (Outstanding(s.invoices[dtos[i].target]) + TOLERANCE) as real {
        return Some(ExceedsOutstanding);
      }
    }
    e := None;
  }

  /** What the sum over all rows, the new ones included, reads for an invoice. */
  lemma TotalPaid(s: Ar, dtos: seq<AllocationDto>, v: nat)
    requires Inv(s) && v < |s.invoices|
    ensures Sum(AllocatedTo(v), s.allocations + Rows(dtos, |s.receipts|)) == s.invoices[v].paid + AmountFor(dtos, v)
  {
    RowsSums(dtos, |s.receipts|, v);
    SumConcat(AllocatedTo(v), s.allocations, Rows(dtos, |s.receipts|));
    assert InvoiceOk(s, v);
  }

  ghost predicate Updated(s: Ar, dtos: seq<AllocationDto>, i: nat, invoices: seq<Invoice>)
    requires i <= |dtos|
  {
    && |invoices| == |s.invoices|
    && forall v | 0 <= v < |s.invoices| ::
         invoices[v] == if Requested(dtos[..i], v) then WithPaid(s.invoices[v], s.invoices[v].paid + AmountFor(dtos, v))
                        else s.invoices[v]
  }

  /** The loop that sums the rows of each allocated invoice and writes the total. */
  method UpdatePaidAmounts(s: Ar, dtos: seq<AllocationDto>) returns (invoices: seq<Invoice>, ok: bool)
    requires Inv(s) && DistinctTargets(dtos)
    requires forall i | 0 <= i < |dtos| :: dtos[i].target < |s.invoices|
    ensures ok <==> Within(s, dtos)
    ensures ok ==> Updated(s, dtos, |dtos|, invoices)
  {
    invoices, ok := s.invoices, true;
    var all := s.allocations + Rows(dtos, |s.receipts|);
    for i := 0 to |dtos|
      invariant Updated(s, dtos, i, invoices) && Within(s, dtos[..i])
    {
      var v := dtos[i].target;
      TotalPaid(s, dtos, v);
      UpdatedNext(s, dtos, i, invoices);
      var paid := Sum(AllocatedTo(v), all);
      if s.bounded && paid > invoices[v].total {
        assert dtos[i] in dtos;
        return invoices, false;
      }
      invoices := invoices[v := WithPaid(invoices[v], paid)];
    }
    assert dtos[..|dtos|] == dtos;
  }

  lemma UpdatedNext(s: Ar, dtos: seq<AllocationDto>, i: nat, invoices: seq<Invoice>)
    requires DistinctTargets(dtos) && i < |dtos| && dtos[i].target < |s.invoices|
    requires Updated(s, dtos, i, invoices) && Within(s, dtos[..i])
    ensures invoices[dtos[i].target] == s.invoices[dtos[i].target]
    ensures AmountFor(dtos, dtos[i].target) == Nearest(dtos[i].amount)
    ensures Within(s, dtos[..i + 1])
            <==> !s.bounded || Nearest(dtos[i].amount) <= Outstanding(s.invoices[dtos[i].target])
    ensures var v := dtos[i].target;
            Updated(s, dtos, i + 1, invoices[v := WithPaid(s.invoices[v], s.invoices[v].paid + AmountFor(dtos, v))])
  {
    assert dtos[i] in dtos && dtos[..i + 1] == dtos[..i] + [dtos[i]];
    AmountForDistinct(dtos, dtos[i].target);
    RequestedNext(dtos, i);
  }

  lemma RequestedNext(dtos: seq<AllocationDto>, i: nat)
    requires DistinctTargets(dtos) && i < |dtos|
    ensures !Requested(dtos[..i], dtos[i].target)
    ensures forall v: nat :: Requested(dtos[..i + 1], v) <==> Requested(dtos[..i], v) || v == dtos[i].target
  {
    assert dtos[..i + 1] == dtos[..i] + [dtos[i]];
    forall v: nat ensures Requested(dtos[..i + 1], v) <==> Requested(dtos[..i], v) || v == dtos[i].target {
      if v == dtos[i].target {
        assert dtos[i] in dtos[..i + 1];
      } else if Requested(dtos[..i], v) {
        var a :| a in dtos[..i] && a.target == v;
        assert a in dtos[..i + 1];
      }
    }
  }
}
