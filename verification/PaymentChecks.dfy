/** Which payments and receipts the services accept, from amounts alone: no status and
    no tolerance; and that documents may be settled in parts. */
module PaymentChecks {
  import opened Common
  import opened Sums
  import opened Rounding
  import opened Allocations
  import P = Payables
  import R = Receipts

  // ------------------------------------------------------------------
  // Payables
  // ------------------------------------------------------------------

  /** What a request has to be: no transaction twice, each of this supplier, of an invoice
      that is not cancelled, and with room for the stored amount. */
  ghost predicate PayableInParts(s: P.Ap, supplier: Id, dtos: seq<AllocationDto>) {
    && dtos != []
    && (forall i, j | 0 <= i < j < |dtos| :: dtos[i].target != dtos[j].target)
    && forall a | a in dtos ::
         && a.target < |s.txs| && s.txs[a.target].invoice < |s.invoices|
         && s.txs[a.target].supplier == supplier
         && s.invoices[s.txs[a.target].invoice].status != P.Cancelled
         && s.txs[a.target].paid + Nearest(a.amount) <= s.txs[a.target].amount
  }

  /** The checks on locked rows and the constraints admit exactly these requests, also
      those for partly paid transactions. */
  lemma LockedPaymentIff(s: P.Ap, supplier: Id, dtos: seq<AllocationDto>)
    requires P.Inv(s) && Positive(dtos)
    ensures P.PassesChecks(s, supplier, dtos) && P.WithinOutstanding(s, dtos) <==> PayableInParts(s, supplier, dtos)
  {
    if PayableInParts(s, supplier, dtos) {
      forall a | a in dtos
        ensures P.Payable(s, supplier, a) && a.amount <= (P.Outstanding(s.txs[a.target]) + TOLERANCE) as real
      {
        assert P.TxOk(s, a.target);
        NearestError(a.amount);
      }
    }
  }

  /** A read before the transaction admits an allocation exactly when the transaction is
      of this supplier, not fully paid, and exceeded by at most 0.01. */
  lemma EarlierPaymentIff(before: seq<P.Ap>, supplier: Id, dtos: seq<AllocationDto>, seen: seq<seq<P.ApTransaction>>)
    requires |before| == |seen| == |dtos|
    requires forall i | 0 <= i < |seen| :: P.Inv(before[i]) && seen[i] == before[i].txs
    requires forall i, x | 0 <= i < |seen| && x in seen[i] :: x.amount > 0
    ensures P.SeenAdmits(seen, supplier, dtos) <==>
            forall i | 0 <= i < |dtos| ::
              && dtos[i].target < |seen[i]|
              && var x := seen[i][dtos[i].target];
                 x.supplier == supplier && x.paid < x.amount && dtos[i].amount <= (x.amount - x.paid + 100) as real
  {
    forall i | 0 <= i < |dtos| && dtos[i].target < |seen[i]|
      ensures var x := seen[i][dtos[i].target]; x.status != P.TxPaid <==> x.paid < x.amount
    {
      assert P.TxOk(before[i], dtos[i].target);
      assert seen[i][dtos[i].target] in seen[i];
    }
  }

  /** Undisturbed, the amounts decide. */
  lemma UndisturbedPaymentIff(s: P.Ap, supplier: Id, dtos: seq<AllocationDto>, seen: seq<seq<P.ApTransaction>>)
    requires P.Inv(s) && Positive(dtos) && |seen| == |dtos|
    requires forall i | 0 <= i < |seen| :: seen[i] == s.txs
    ensures P.SeenAdmits(seen, supplier, dtos) && P.PassesChecks(s, supplier, dtos) && P.WithinOutstanding(s, dtos)
            <==> PayableInParts(s, supplier, dtos)
  {
    LockedPaymentIff(s, supplier, dtos);
    if P.PassesChecks(s, supplier, dtos) {
      assert forall i | 0 <= i < |dtos| :: dtos[i] in dtos;
      assert forall i | 0 <= i < |dtos| :: P.Payable(s, supplier, dtos[i]);
    }
  }

  /** A cancellation that was begun leaves the invoice cancelled exactly when nothing is
      paid by then, and touches nothing else. */
  lemma CancelIff(s: P.State, v: nat, s': P.State)
    requires P.Inv(s.ap) && P.Next(s, P.CancelWrite(v), s')
    ensures v < |s'.ap.invoices| == |s.ap.invoices|
    ensures s'.ap.invoices[v].status == P.Cancelled <==> s.ap.invoices[v].paid == 0
    ensures s.ap.invoices[v].paid == 0 ==>
              s'.ap == s.ap.(invoices := s.ap.invoices[v := s.ap.invoices[v].(status := P.Cancelled)])
    ensures s.ap.invoices[v].paid != 0 ==> s'.ap == s.ap
  {
    assert P.HasTransaction(s.ap.txs, v);
    var t :| 0 <= t < |s.ap.txs| && s.ap.txs[t].invoice == v;
    assert P.TxOk(s.ap, t);
  }

  /** It can be begun exactly while the invoice is not marked paid and nothing is paid. */
  lemma CancelBeginsIff(s: P.State, v: nat)
    requires P.Inv(s.ap) && v < |s.ap.invoices|
    ensures (exists s' :: P.Next(s, P.CancelRead(v), s'))
            <==> s.ap.invoices[v].paid == 0 && s.ap.invoices[v].status != P.Paid
  {
    assert P.HasTransaction(s.ap.txs, v);
    var t :| 0 <= t < |s.ap.txs| && s.ap.txs[t].invoice == v;
    assert P.TxOk(s.ap, t);
    if s.ap.invoices[v].paid == 0 && s.ap.invoices[v].status != P.Paid {
      assert P.Next(s, P.CancelRead(v), s.(cancelling := s.cancelling + {v}));
    }
  }

  // ------------------------------------------------------------------
  // Receipts
  // ------------------------------------------------------------------

  ghost predicate CollectableInParts(s: R.Ar, customer: Id, dtos: seq<AllocationDto>) {
    && dtos != []
    && (forall i, j | 0 <= i < j < |dtos| :: dtos[i].target != dtos[j].target)
    && forall a | a in dtos ::
         && a.target < |s.invoices| && s.invoices[a.target].customer == customer
         && a.amount <= (s.invoices[a.target].total - s.invoices[a.target].paid) as real
  }

  /** Undisturbed, a receipt is admitted exactly when no invoice occurs twice, each is
      this customer's, and none is asked for more than is missing, before rounding. */
  lemma UndisturbedReceiptIff(s: R.Ar, customer: Id, dtos: seq<AllocationDto>, seen: seq<seq<R.Invoice>>)
    requires R.Inv(s) && Positive(dtos) && |seen| == |dtos|
    requires forall i | 0 <= i < |seen| :: seen[i] == s.invoices
    ensures R.SeenAdmits(seen, customer, dtos) && R.Admits(s, customer, dtos, TOLERANCE) && R.Within(s, dtos)
            <==> CollectableInParts(s, customer, dtos)
  {
    if CollectableInParts(s, customer, dtos) {
      forall i | 0 <= i < |dtos|
        ensures R.Collectable(s, customer, dtos[i])
        ensures dtos[i].amount <= R.Outstanding(s.invoices[dtos[i].target]) as real
      {
        assert dtos[i] in dtos;
        assert R.InvoiceOk(s, dtos[i].target);
      }
      assert DistinctTargets(dtos);
      R.UndisturbedAdmits(s, customer, dtos, seen);
    }
    if R.SeenAdmits(seen, customer, dtos) && R.Admits(s, customer, dtos, TOLERANCE) {
      forall a | a in dtos ensures a.amount <= (s.invoices[a.target].total - s.invoices[a.target].paid) as real {
        var i :| 0 <= i < |dtos| && dtos[i] == a;
      }
    }
  }

  /** The checks on locked invoices and the constraint, where it has been added, leave
      0.01 and nothing beyond what is missing, respectively. */
  lemma LockedReceiptIff(s: R.Ar, customer: Id, dtos: seq<AllocationDto>)
    requires R.Inv(s) && Positive(dtos) && forall v | v in s.invoices :: v.total > 0
    ensures R.Admits(s, customer, dtos, TOLERANCE) && R.Within(s, dtos) <==>
            && dtos != []
            && (forall i, j | 0 <= i < j < |dtos| :: dtos[i].target != dtos[j].target)
            && forall a | a in dtos ::
                 && a.target < |s.invoices| && s.invoices[a.target].customer == customer
                 && var missing := s.invoices[a.target].total - s.invoices[a.target].paid;
                    missing > 0 && if s.bounded then Nearest(a.amount) <= missing
                                   else a.amount <= (missing + 100) as real
  {
    forall a | a in dtos && a.target < |s.invoices|
      ensures s.invoices[a.target].status != R.Paid <==> s.invoices[a.target].total > s.invoices[a.target].paid
    {
      assert R.InvoiceOk(s, a.target);
      assert s.invoices[a.target] in s.invoices;
    }
    forall a | a in dtos {
      NearestError(a.amount);
    }
  }
}
