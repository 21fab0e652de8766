/** Customer invoices, receipts and supplier payments together with the journals
    they post: the ledger's control accounts against the documents. */
module ControlAccounts {
  import opened Common
  import opened Sums
  import opened Rounding
  import opened Allocations
  import opened Entries
  import opened BooksInvariant
  import Books
  import InvoiceTotals
  import Payables
  import Receipts

  /** The system accounts involved. */
  datatype Accounts = Accounts(cash: Id, receivable: Id, payable: Id, revenue: Id, tax: Id)

  /** Receivables and payables are accounts of their own. */
  predicate Separate(c: Accounts) {
    && c.receivable !in {c.cash, c.payable, c.revenue, c.tax}
    && c.payable !in {c.cash, c.revenue, c.tax}
  }

  /** Where and when a journal is posted. */
  datatype Slot = Slot(period: nat, at: int, number: Books.JournalNumber)

  datatype State = State(ar: Receipts.Ar, ap: Payables.State, books: Books.Books)

  /** A supplier is paid from the ledger account of whichever bank account is named. */
  datatype Step =
    | Bill(customer: Id, net: nat, taxAmount: nat, slot: Slot)
    | Collect(customer: Id, dtos: seq<AllocationDto>, slot: Slot)
    | PaySupplier(supplier: Id, dtos: seq<AllocationDto>, source: Id, slot: Slot)
    | OnPayables(step: Payables.Step)
    | OnBooks(op: Books.Op)

  function InvoiceEntry(c: Accounts, id: nat, net: nat, taxAmount: nat, at: Slot): Books.JournalDto {
    Books.JournalDto(at.period, at.at, Some(Books.Reference("customer_invoice", id)),
                     InvoiceTotals.RawInvoiceLines(c.receivable, c.revenue, c.tax, net, taxAmount))
  }

  function ReceiptEntry(c: Accounts, id: nat, dtos: seq<AllocationDto>, at: Slot): Books.JournalDto {
    Receipts.Entry(c.cash, c.receivable, dtos, id, at.period, at.at)
  }

  function PaymentEntry(c: Accounts, dtos: seq<AllocationDto>, source: Id, at: Slot): Books.JournalDto {
    TwoLegs(c.payable, source, RawTotal(dtos), at.period, at.at, None)
  }

  /** Vendor invoices and their cancellation post no journal. Any other accounting
      transaction may run in between, on whatever accounts. */
  ghost predicate Next(c: Accounts, column: Books.ReversalColumn, s: State, step: Step, s': State) {
    match step
    case Bill(customer, net, taxAmount, at) =>
      && s'.ap == s.ap
      && Receipts.Next(s.ar, Receipts.Bill(customer, net + taxAmount), s'.ar)
      && Books.CreateAndPost(s.books, InvoiceEntry(c, |s.ar.invoices|, net, taxAmount, at), at.number) == Ok(s'.books)
    case Collect(customer, dtos, at) =>
      && s'.ap == s.ap
      && Receipts.Next(s.ar, Receipts.Receive(customer, dtos), s'.ar)
      && Books.CreateAndPost(s.books, ReceiptEntry(c, |s.ar.receipts|, dtos, at), at.number) == Ok(s'.books)
    case PaySupplier(supplier, dtos, source, at) =>
      && s'.ar == s.ar && source != c.receivable && source != c.payable
      && Payables.Next(s.ap, Payables.Pay(supplier, dtos), s'.ap)
      && Books.CreateAndPost(s.books, PaymentEntry(c, dtos, source, at), at.number) == Ok(s'.books)
    case OnPayables(step) =>
      !step.Pay? && Payables.Next(s.ap, step, s'.ap) && s'.ar == s.ar && s'.books == s.books
    case OnBooks(op) =>
      s' == s.(books := Books.Apply(s.books, op, column))
  }

  // ------------------------------------------------------------------
  // What each step moves
  // ------------------------------------------------------------------

  function TotalAmount(): Receipts.Invoice -> int { (v: Receipts.Invoice) => v.total }

  function OutstandingAmount(): Receipts.Invoice -> int { (v: Receipts.Invoice) => v.total - v.paid }

  /** What customers were billed and have not paid. */
  function Due(ar: Receipts.Ar): int {
    Sum(TotalAmount(), ar.invoices) - Sum(Receipts.ReceiptAmount(), ar.receipts)
  }

  function Paid(ap: Payables.State): int { Sum(Payables.PaymentAmount(), ap.ap.payments) }

  lemma InvoiceLinesNet(c: Accounts, net: nat, taxAmount: nat, account: Id)
    requires Separate(c) && account in {c.receivable, c.payable}
    ensures Sum(LineNet(account), InvoiceTotals.InvoiceLines(c.receivable, c.revenue, c.tax, net, taxAmount))
         == if account == c.receivable then net + taxAmount else 0
  {
    var due, sale, vat := Books.Line(c.receivable, net + taxAmount, 0), Books.Line(c.revenue, 0, net),
        Books.Line(c.tax, 0, taxAmount);
    assert [due, sale] == [due] + [sale] && [due, sale] + [] == [due, sale];
    SumOne(LineNet(account), [due], due);
    SumAppend(LineNet(account), [due], sale);
    SumAppend(LineNet(account), [due, sale], vat);
  }

  lemma {:induction false} SameTotals(xs: seq<Receipts.Invoice>, ys: seq<Receipts.Invoice>)
    requires |xs| == |ys| && forall i | 0 <= i < |xs| :: xs[i].total == ys[i].total
    ensures Sum(TotalAmount(), xs) == Sum(TotalAmount(), ys)
  {
    if xs != [] {
      SameTotals(xs[..|xs| - 1], ys[..|ys| - 1]);
    }
  }

  lemma InvoiceEntryMoves(c: Accounts, books: Books.Books, id: nat, net: nat, taxAmount: nat, at: Slot,
                          books': Books.Books)
    requires Separate(c) && Books.CreateAndPost(books, InvoiceEntry(c, id, net, taxAmount, at), at.number) == Ok(books')
    ensures AccountNet(books', c.receivable) == AccountNet(books, c.receivable) + net + taxAmount
    ensures AccountNet(books', c.payable) == AccountNet(books, c.payable)
  {
    InvoiceTotals.InvoiceLinesStored(c.receivable, c.revenue, c.tax, net, taxAmount);
    CreateAndPostMoves(books, InvoiceEntry(c, id, net, taxAmount, at), at.number, c.receivable);
    CreateAndPostMoves(books, InvoiceEntry(c, id, net, taxAmount, at), at.number, c.payable);
    InvoiceLinesNet(c, net, taxAmount, c.receivable);
    InvoiceLinesNet(c, net, taxAmount, c.payable);
  }

  lemma ReceiptEntryMoves(c: Accounts, books: Books.Books, id: nat, dtos: seq<AllocationDto>, at: Slot,
                          books': Books.Books)
    requires Separate(c) && Books.CreateAndPost(books, ReceiptEntry(c, id, dtos, at), at.number) == Ok(books')
    ensures AccountNet(books', c.receivable) == AccountNet(books, c.receivable) - PaymentTotal(dtos)
    ensures AccountNet(books', c.payable) == AccountNet(books, c.payable)
  {
    var reference := Some(Receipts.PaymentReference(id));
    TwoLegsMove(books, c.cash, c.receivable, RawTotal(dtos), at.period, at.at, reference, at.number, c.receivable);
    TwoLegsMove(books, c.cash, c.receivable, RawTotal(dtos), at.period, at.at, reference, at.number, c.payable);
  }

  lemma PaymentEntryMoves(c: Accounts, books: Books.Books, dtos: seq<AllocationDto>, source: Id, at: Slot,
                          books': Books.Books)
    requires Separate(c) && source != c.receivable && source != c.payable
    requires Books.CreateAndPost(books, PaymentEntry(c, dtos, source, at), at.number) == Ok(books')
    ensures AccountNet(books', c.payable) == AccountNet(books, c.payable) + PaymentTotal(dtos)
    ensures AccountNet(books', c.receivable) == AccountNet(books, c.receivable)
  {
    TwoLegsMove(books, c.payable, source, RawTotal(dtos), at.period, at.at, None, at.number, c.receivable);
    TwoLegsMove(books, c.payable, source, RawTotal(dtos), at.period, at.at, None, at.number, c.payable);
  }

  lemma Billed(ar: Receipts.Ar, customer: Id, total: int, ar': Receipts.Ar)
    requires Receipts.Next(ar, Receipts.Bill(customer, total), ar')
    ensures Due(ar') == Due(ar) + total
  {
    SumAppend(TotalAmount(), ar.invoices, Receipts.Invoice(customer, total, 0, Receipts.Unpaid));
  }

  lemma Collected(ar: Receipts.Ar, customer: Id, dtos: seq<AllocationDto>, ar': Receipts.Ar)
    requires Receipts.Next(ar, Receipts.Receive(customer, dtos), ar')
    ensures Due(ar') == Due(ar) - PaymentTotal(dtos)
  {
    SumAppend(Receipts.ReceiptAmount(), ar.receipts, Receipts.Receipt(customer, PaymentTotal(dtos)));
    SameTotals(ar.invoices, ar'.invoices);
  }

  lemma PaidByPayment(ap: Payables.State, supplier: Id, dtos: seq<AllocationDto>, ap': Payables.State)
    requires Payables.Next(ap, Payables.Pay(supplier, dtos), ap')
    ensures Paid(ap') == Paid(ap) + PaymentTotal(dtos)
  {
    SumAppend(Payables.PaymentAmount(), ap.ap.payments, Payables.Payment(supplier, PaymentTotal(dtos)));
  }

  /** What the step does to the account besides billing, collecting and paying. */
  function OtherMove(account: Id, s: State, step: Step, s': State): int {
    if step.OnBooks? then AccountNet(s'.books, account) - AccountNet(s.books, account) else 0
  }

  lemma BillMoves(c: Accounts, column: Books.ReversalColumn, s: State, step: Step, s': State)
    requires Separate(c) && step.Bill? && Next(c, column, s, step, s')
    ensures AccountNet(s'.books, c.receivable) - AccountNet(s.books, c.receivable)
         == Due(s'.ar) - Due(s.ar) + OtherMove(c.receivable, s, step, s')
    ensures AccountNet(s'.books, c.payable) - AccountNet(s.books, c.payable)
         == Paid(s'.ap) - Paid(s.ap) + OtherMove(c.payable, s, step, s')
  {
    InvoiceEntryMoves(c, s.books, |s.ar.invoices|, step.net, step.taxAmount, step.slot, s'.books);
    Billed(s.ar, step.customer, step.net + step.taxAmount, s'.ar);
  }

  lemma CollectMoves(c: Accounts, column: Books.ReversalColumn, s: State, step: Step, s': State)
    requires Separate(c) && step.Collect? && Next(c, column, s, step, s')
    ensures AccountNet(s'.books, c.receivable) - AccountNet(s.books, c.receivable)
         == Due(s'.ar) - Due(s.ar) + OtherMove(c.receivable, s, step, s')
    ensures AccountNet(s'.books, c.payable) - AccountNet(s.books, c.payable)
         == Paid(s'.ap) - Paid(s.ap) + OtherMove(c.payable, s, step, s')
  {
    ReceiptEntryMoves(c, s.books, |s.ar.receipts|, step.dtos, step.slot, s'.books);
    Collected(s.ar, step.customer, step.dtos, s'.ar);
  }

  lemma PaySupplierMoves(c: Accounts, column: Books.ReversalColumn, s: State, step: Step, s': State)
    requires Separate(c) && step.PaySupplier? && Next(c, column, s, step, s')
    ensures AccountNet(s'.books, c.receivable) - AccountNet(s.books, c.receivable)
         == Due(s'.ar) - Due(s.ar) + OtherMove(c.receivable, s, step, s')
    ensures AccountNet(s'.books, c.payable) - AccountNet(s.books, c.payable)
         == Paid(s'.ap) - Paid(s.ap) + OtherMove(c.payable, s, step, s')
  {
    PaymentEntryMoves(c, s.books, step.dtos, step.source, step.slot, s'.books);
    PaidByPayment(s.ap, step.supplier, step.dtos, s'.ap);
  }

  lemma StepMoves(c: Accounts, column: Books.ReversalColumn, s: State, step: Step, s': State)
    requires Separate(c) && Next(c, column, s, step, s')
    ensures AccountNet(s'.books, c.receivable) - AccountNet(s.books, c.receivable)
         == Due(s'.ar) - Due(s.ar) + OtherMove(c.receivable, s, step, s')
    ensures AccountNet(s'.books, c.payable) - AccountNet(s.books, c.payable)
         == Paid(s'.ap) - Paid(s.ap) + OtherMove(c.payable, s, step, s')
  {
    match step
    case Bill(_, _, _, _) => BillMoves(c, column, s, step, s');
    case Collect(_, _, _) => CollectMoves(c, column, s, step, s');
    case PaySupplier(_, _, _, _) => PaySupplierMoves(c, column, s, step, s');
    case _ =>
  }

  // ------------------------------------------------------------------
  // Runs
  // ------------------------------------------------------------------

  function Start(bounded: bool): State {
    State(Receipts.Ar(bounded, [], [], []), Payables.State(Payables.Ap([], [], [], []), {}), Books.EMPTY)
  }

  ghost predicate Run(c: Accounts, column: Books.ReversalColumn, bounded: bool, states: seq<State>, steps: seq<Step>) {
    && |states| == |steps| + 1 && states[0] == Start(bounded)
    && forall i | 0 <= i < |steps| :: Next(c, column, states[i], steps[i], states[i + 1])
  }

  /** Everything that other accounting transactions did to an account. */
  function OtherMoves(account: Id, states: seq<State>, steps: seq<Step>): int
    requires |states| == |steps| + 1
    decreases steps
  {
    if steps == [] then 0 else
      var n := |steps| - 1;
      OtherMoves(account, states[..n + 1], steps[..n]) + OtherMove(account, states[n], steps[n], states[n + 1])
  }

  function OnReceipts(step: Step): Option<Receipts.Step> {
    match step
    case Bill(customer, net, taxAmount, _) => Some(Receipts.Bill(customer, net + taxAmount))
    case Collect(customer, dtos, _) => Some(Receipts.Receive(customer, dtos))
    case _ => None
  }

  ghost predicate Follows(ar: Receipts.Ar, step: Option<Receipts.Step>, ar': Receipts.Ar) {
    match step case Some(x) => Receipts.Next(ar, x, ar') case None => ar' == ar
  }

  lemma ReceivablesFollow(c: Accounts, column: Books.ReversalColumn, s: State, step: Step, s': State)
    requires Next(c, column, s, step, s')
    ensures Follows(s.ar, OnReceipts(step), s'.ar)
  {
  }

  lemma FollowingKeepsInv(ar: Receipts.Ar, step: Option<Receipts.Step>, ar': Receipts.Ar)
    requires Receipts.Inv(ar) && Follows(ar, step, ar')
    ensures Receipts.Inv(ar')
  {
    if step.Some? {
      Receipts.StepKeepsInv(ar, step.value, ar');
    }
  }

  lemma StepKeepsPayables(c: Accounts, column: Books.ReversalColumn, s: State, step: Step, s': State)
    requires Next(c, column, s, step, s') && Payables.Inv(s.ap.ap)
    ensures Payables.Inv(s'.ap.ap)
  {
    match step
    case PaySupplier(supplier, dtos, _, _) => Payables.StepKeepsInv(s.ap, Payables.Pay(supplier, dtos), s'.ap);
    case OnPayables(step) => Payables.StepKeepsInv(s.ap, step, s'.ap);
    case _ =>
  }

  lemma StepKeepsBooks(c: Accounts, column: Books.ReversalColumn, s: State, step: Step, s': State)
    requires Next(c, column, s, step, s') && Inv(s.books)
    ensures Inv(s'.books)
  {
    match step
    case Bill(customer, net, taxAmount, at) =>
      CreateAndPostKeepsInv(s.books, InvoiceEntry(c, |s.ar.invoices|, net, taxAmount, at), at.number);
    case Collect(customer, dtos, at) =>
      CreateAndPostKeepsInv(s.books, ReceiptEntry(c, |s.ar.receipts|, dtos, at), at.number);
    case PaySupplier(supplier, dtos, source, at) =>
      CreateAndPostKeepsInv(s.books, PaymentEntry(c, dtos, source, at), at.number);
    case OnBooks(op) => ApplyKeepsInv(s.books, op, column);
    case _ =>
  }

  lemma {:induction false} RunKeepsInvs(c: Accounts, column: Books.ReversalColumn, bounded: bool, states: seq<State>,
                                        steps: seq<Step>)
    requires Run(c, column, bounded, states, steps)
    ensures var s := states[|steps|]; Receipts.Inv(s.ar) && Payables.Inv(s.ap.ap) && Inv(s.books)
    decreases steps
  {
    if steps == [] {
      EmptyBooksInv();
    } else {
      var n := |steps| - 1;
      assert Run(c, column, bounded, states[..n + 1], steps[..n]);
      RunKeepsInvs(c, column, bounded, states[..n + 1], steps[..n]);
      ReceivablesFollow(c, column, states[n], steps[n], states[n + 1]);
      FollowingKeepsInv(states[n].ar, OnReceipts(steps[n]), states[n + 1].ar);
      StepKeepsPayables(c, column, states[n], steps[n], states[n + 1]);
      StepKeepsBooks(c, column, states[n], steps[n], states[n + 1]);
    }
  }

  lemma {:induction false} RunMoves(c: Accounts, column: Books.ReversalColumn, bounded: bool, states: seq<State>,
                                    steps: seq<Step>)
    requires Separate(c) && Run(c, column, bounded, states, steps)
    ensures var s := states[|steps|];
            && AccountNet(s.books, c.receivable) == Due(s.ar) + OtherMoves(c.receivable, states, steps)
            && AccountNet(s.books, c.payable) == Paid(s.ap) + OtherMoves(c.payable, states, steps)
    decreases steps
  {
    if steps != [] {
      var n := |steps| - 1;
      assert Run(c, column, bounded, states[..n + 1], steps[..n]);
      RunMoves(c, column, bounded, states[..n + 1], steps[..n]);
      StepMoves(c, column, states[n], steps[n], states[n + 1]);
    }
  }

  /** What rounding leaves between the documents' totals and their rows. */
  function ReceiptExcess(): Step -> int {
    (step: Step) => if step.Collect? then PaymentTotal(step.dtos) - StoredTotal(step.dtos) else 0
  }

  function PaymentExcess(): Step -> int {
    (step: Step) => if step.PaySupplier? then PaymentTotal(step.dtos) - StoredTotal(step.dtos) else 0
  }

  lemma ReceiptsStep(ar: Receipts.Ar, step: Option<Receipts.Step>, ar': Receipts.Ar)
    requires Receipts.Inv(ar) && Follows(ar, step, ar')
    ensures Sum(Receipts.ReceiptAmount(), ar'.receipts) - Sum(Receipts.PaidAmount(), ar'.invoices)
         == Sum(Receipts.ReceiptAmount(), ar.receipts) - Sum(Receipts.PaidAmount(), ar.invoices)
            + if step.Some? && step.value.Receive?
              then PaymentTotal(step.value.dtos) - StoredTotal(step.value.dtos)
              else 0
  {
    if step.Some? {
      Receipts.TotalsGrow(ar, step.value, ar');
    }
  }

  function OnSuppliers(step: Step): Option<Payables.Step> {
    match step
    case PaySupplier(supplier, dtos, _, _) => Some(Payables.Pay(supplier, dtos))
    case OnPayables(x) => Some(x)
    case _ => None
  }

  lemma PaymentsStep(c: Accounts, column: Books.ReversalColumn, s: State, step: Step, s': State)
    requires Payables.Inv(s.ap.ap) && Next(c, column, s, step, s')
    ensures Paid(s'.ap) - Sum(Payables.PaidAmount(), s'.ap.ap.txs)
         == Paid(s.ap) - Sum(Payables.PaidAmount(), s.ap.ap.txs) + PaymentExcess()(step)
  {
    if OnSuppliers(step).Some? {
      Payables.PaymentsGrow(s.ap, OnSuppliers(step).value, s'.ap);
      Payables.PaidSumGrows(s.ap, OnSuppliers(step).value, s'.ap);
    }
  }

  lemma {:induction false} RunExcess(c: Accounts, column: Books.ReversalColumn, bounded: bool, states: seq<State>,
                                     steps: seq<Step>)
    requires Separate(c) && Run(c, column, bounded, states, steps)
    ensures var s := states[|steps|];
            && Sum(Receipts.ReceiptAmount(), s.ar.receipts)
                == Sum(Receipts.PaidAmount(), s.ar.invoices) + Sum(ReceiptExcess(), steps)
            && Paid(s.ap) == Sum(Payables.PaidAmount(), s.ap.ap.txs) + Sum(PaymentExcess(), steps)
    decreases steps
  {
    if steps != [] {
      var n := |steps| - 1;
      assert Run(c, column, bounded, states[..n + 1], steps[..n]);
      RunExcess(c, column, bounded, states[..n + 1], steps[..n]);
      RunKeepsInvs(c, column, bounded, states[..n + 1], steps[..n]);
      ReceivablesFollow(c, column, states[n], steps[n], states[n + 1]);
      ReceiptsStep(states[n].ar, OnReceipts(steps[n]), states[n + 1].ar);
      PaymentsStep(c, column, states[n], steps[n], states[n + 1]);
    }
  }

  /** Over every run the ledger's receivables are the outstanding amounts of all
      customer invoices, and its payables the paid amounts, up to exactly two things:
      what other accounting transactions did to these accounts, and what rounding left
      between receipts and payments and their rows. */
  lemma ControlAccountsAgree(c: Accounts, column: Books.ReversalColumn, bounded: bool, states: seq<State>,
                             steps: seq<Step>)
    requires Separate(c) && Run(c, column, bounded, states, steps)
    ensures var s := states[|steps|];
            && AccountNet(s.books, c.receivable)
               == Sum(OutstandingAmount(), s.ar.invoices) - Sum(ReceiptExcess(), steps)
                   + OtherMoves(c.receivable, states, steps)
            && AccountNet(s.books, c.payable)
               == Sum(Payables.PaidAmount(), s.ap.ap.txs) + Sum(PaymentExcess(), steps)
                   + OtherMoves(c.payable, states, steps)
  {
    RunMoves(c, column, bounded, states, steps);
    RunExcess(c, column, bounded, states, steps);
    var invoices := states[|steps|].ar.invoices;
    SumPlus(OutstandingAmount(), Receipts.PaidAmount(), TotalAmount(), invoices);
  }

  predicate WholeSteps(steps: seq<Step>) {
    forall step | step in steps :: (step.Collect? || step.PaySupplier?) ==> WholeAmounts(step.dtos)
  }

  /** With at most four decimals in every request only the former remains. */
  lemma FourDecimalsAgree(steps: seq<Step>)
    requires WholeSteps(steps)
    ensures Sum(ReceiptExcess(), steps) == 0 && Sum(PaymentExcess(), steps) == 0
  {
    forall step | step in steps ensures ReceiptExcess()(step) == 0 && PaymentExcess()(step) == 0 {
      if step.Collect? || step.PaySupplier? {
        PaymentVersusRows(step.dtos);
      }
    }
    SumZero(ReceiptExcess(), steps);
    SumZero(PaymentExcess(), steps);
  }
}
