/** What every interleaving of deliveries and invoicing keeps. */
module BillingInvariant {
  import opened Common
  import opened Sums
  import opened Billing

  // ------------------------------------------------------------------
  // The two queries
  // ------------------------------------------------------------------

  lemma LinesNonNegative(s: Shop, i: nat)
    requires RowsOk(s)
    ensures forall d: nat :: ShippedBy(s, i)(d) >= 0
  {
    forall d: nat | d < |s.deliveries| ensures ShippedBy(s, i)(d) >= 0 {
      assert DeliveryRowOk(s, s.deliveries[d]);
      SumNonNegative(LineFor(i), s.deliveries[d].lines);
    }
  }

  /** The delivered quantity depends on the confirmed deliveries of the order alone. */
  lemma DeliveredSame(s: Shop, s': Shop, order: nat, i: nat)
    requires |s'.deliveries| >= |s.deliveries|
    requires forall d: nat | d < |s'.deliveries| :: IsConfirmedOf(s', order, d) <==> IsConfirmedOf(s, order, d)
    requires forall d | 0 <= d < |s.deliveries| :: s'.deliveries[d].lines == s.deliveries[d].lines
    ensures DeliveredQuantity(s', order, i) == DeliveredQuantity(s, order, i)
  {
    var n, m := |s.deliveries|, |s'.deliveries|;
    var rest := Ids(m)[n..];
    assert Ids(m) == Ids(n) + rest;
    SumConcat(ConfirmedFor(s', order, i), Ids(n), rest);
    SumZero(ConfirmedFor(s', order, i), rest);
    forall d | d in Ids(n) ensures ConfirmedFor(s', order, i)(d) == ConfirmedFor(s, order, i)(d) {
      assert s'.deliveries[d].lines == s.deliveries[d].lines;
      assert d < n && ShippedBy(s', i)(d) == ShippedBy(s, i)(d);
      assert IsConfirmedOf(s', order, d) <==> IsConfirmedOf(s, order, d);
    }
    SumEqual(ConfirmedFor(s', order, i), ConfirmedFor(s, order, i), Ids(n));
  }

  /** Earlier invoices go on counting the same quantities. */
  lemma InvoicedGrows(s: Shop, s': Shop, i: nat)
    requires LinksOk(s) && RowsOk(s') && |s'.deliveries| >= |s.deliveries| && |s'.links| >= |s.links|
    requires s'.links[..|s.links|] == s.links
    requires forall d | 0 <= d < |s.deliveries| :: s'.deliveries[d].lines == s.deliveries[d].lines
    ensures InvoicedQuantity(s', i) >= InvoicedQuantity(s, i)
    ensures s'.links == s.links ==> InvoicedQuantity(s', i) == InvoicedQuantity(s, i)
  {
    var earlier, all := LinkedDeliveries(s.links), LinkedDeliveries(s'.links);
    var rest := all[|earlier|..];
    assert all == earlier + rest by {
      forall k | 0 <= k < |earlier| ensures all[k] == earlier[k] {
        assert s'.links[..|s.links|][k] == s.links[k];
      }
    }
    SumConcat(ShippedBy(s', i), earlier, rest);
    LinesNonNegative(s', i);
    SumNonNegative(ShippedBy(s', i), rest);
    SumEqual(ShippedBy(s', i), ShippedBy(s, i), earlier);
  }

  function Only(f: nat -> int, ids: seq<nat>): nat -> int {
    (d: nat) => if d in ids then f(d) else 0
  }

  function JustAt(f: nat -> int, x: nat): nat -> int {
    (d: nat) => if d == x then f(d) else 0
  }

  /** A list of distinct ids may be summed by running through all ids. */
  lemma {:induction false} DistinctSum(f: nat -> int, ids: seq<nat>, n: nat)
    requires Distinct(ids) && forall d | d in ids :: d < n
    ensures Sum(f, ids) == Sum(Only(f, ids), Ids(n))
  {
    if ids == [] {
      SumZero(Only(f, ids), Ids(n));
    } else {
      var m := |ids| - 1;
      var x := ids[m];
      assert x in ids;
      assert forall d | d in ids[..m] :: d in ids;
      DistinctSum(f, ids[..m], n);
      assert ids == ids[..m] + [x] && x !in ids[..m];
      forall d | d in Ids(n) ensures Only(f, ids)(d) == Only(f, ids[..m])(d) + JustAt(f, x)(d) {
        assert d in ids <==> d in ids[..m] || d == x;
      }
      SumPlus(Only(f, ids[..m]), JustAt(f, x), Only(f, ids), Ids(n));
      SumSingle(JustAt(f, x), Ids(n), x);
    }
  }

  // ------------------------------------------------------------------
  // Every step keeps the invariant
  // ------------------------------------------------------------------

  lemma ConfirmKeepsCounts(s: Shop, d: nat, s': Shop)
    requires RowsOk(s) && CountsOk(s) && d < |s.deliveries| && DeliveryConfirmed(s, d, s')
    ensures CountsOk(s')
  {
    var order := s.deliveries[d].order;
    var shipped := s.(deliveries := s.deliveries[d := s.deliveries[d].(status := ConfirmedDelivery)]);
    forall i | 0 <= i < |s'.items| ensures s'.items[i].delivered == DeliveredQuantity(s', s'.items[i].order, i) {
      if s.items[i].order == order {
        DeliveredSame(shipped, s', order, i);
      } else {
        DeliveredSame(s, s', s.items[i].order, i);
      }
    }
  }

  lemma ConfirmKeepsStatuses(s: Shop, d: nat, s': Shop)
    requires LinksOk(s) && RowsOk(s) && RowsOk(s') && StatusesOk(s) && d < |s.deliveries| && DeliveryConfirmed(s, d, s')
    requires Deliverable(s.orders[s.deliveries[d].order])
    ensures StatusesOk(s')
  {
    var order := s.deliveries[d].order;
    forall o: nat | o < |s'.orders| && s'.orders[o] == Invoiced ensures FullyInvoiced(s', o) {
      assert o != order && FullyInvoiced(s, o);
      forall i | 0 <= i < |s'.items| && s'.items[i].order == o
        ensures InvoicedQuantity(s', i) >= s'.items[i].delivered
      {
        InvoicedGrows(s, s', i);
      }
    }
    forall o: nat | o < |s'.orders| && s'.orders[o] == Delivered ensures AllDelivered(s', o) {
      if o != order {
        assert AllDelivered(s, o);
      }
    }
  }

  lemma ConfirmKeepsRows(s: Shop, d: nat, s': Shop)
    requires LinksOk(s) && RowsOk(s) && d < |s.deliveries| && DeliveryConfirmed(s, d, s')
    ensures LinksOk(s') && RowsOk(s')
  {
    forall e: nat, o: nat | IsConfirmedOf(s, o, e) ensures IsConfirmedOf(s', o, e) {}
    forall k | 0 <= k < |s'.links| ensures IsConfirmedOf(s', s'.links[k].order, s'.links[k].delivery) {
      assert IsConfirmedOf(s, s.links[k].order, s.links[k].delivery);
    }
    forall e | 0 <= e < |s'.deliveries| ensures DeliveryRowOk(s', s'.deliveries[e]) {
      assert DeliveryRowOk(s, s.deliveries[e]);
    }
  }

  lemma CommitConfirmKeeps(t: State, order: nat, d: nat, t': State)
    requires Inv(t) && Next(t, Commit(order), t') && t.held[order] == Confirming(d)
    ensures Inv(t')
  {
    ConfirmKeepsRows(t.shop, d, t'.shop);
    ConfirmKeepsCounts(t.shop, d, t'.shop);
    ConfirmKeepsStatuses(t.shop, d, t'.shop);
    ConfirmKeepsHeld(t, order, d, t');
  }

  lemma ConfirmKeepsHeld(t: State, order: nat, d: nat, t': State)
    requires RowsOk(t.shop) && HeldOk(t) && Next(t, Commit(order), t') && t.held[order] == Confirming(d)
    ensures HeldOk(t')
  {
  }

  lemma CommitInvoiceKeeps(t: State, order: nat, ids: seq<nat>, t': State)
    requires Inv(t) && Next(t, Commit(order), t') && t.held[order] == Invoicing(ids)
    ensures Inv(t')
  {
    var s, s' := t.shop, t'.shop;
    InvoiceKeepsLinks(s, order, ids);
    forall i | 0 <= i < |s'.items| ensures s'.items[i].delivered == DeliveredQuantity(s', s'.items[i].order, i) {
      DeliveredSame(s, s', s.items[i].order, i);
    }
    forall o: nat | o < |s'.orders| && s'.orders[o] == Invoiced ensures FullyInvoiced(s', o) {
      InvoiceStatusHolds(s, order, ids, o);
    }
    forall o: nat | o < |s'.orders| && s'.orders[o] == Delivered ensures AllDelivered(s', o) {
      assert AllDelivered(s, o);
    }
    forall e | 0 <= e < |s'.deliveries| ensures DeliveryRowOk(s', s'.deliveries[e]) {
      assert DeliveryRowOk(s, s.deliveries[e]);
    }
  }

  lemma InvoiceKeepsLinks(s: Shop, order: nat, ids: seq<nat>)
    requires LinksOk(s) && CanInvoice(s, order, ids) && order < |s.orders|
    ensures LinksOk(AfterInvoice(s, order, ids))
  {
    var s' := AfterInvoice(s, order, ids);
    var n := |s.links|;
    forall k | 0 <= k < |s'.links|
      ensures IsConfirmedOf(s', s'.links[k].order, s'.links[k].delivery) && s'.links[k].invoice < s'.invoices
    {
      if k < n {
        assert IsConfirmedOf(s, s.links[k].order, s.links[k].delivery);
      } else {
        assert ids[k - n] in ids;
      }
    }
    forall k, m | 0 <= k < m < |s'.links| ensures s'.links[k].delivery != s'.links[m].delivery {
      if k < n <= m {
        assert ids[m - n] in ids && s.links[k].delivery == LinkedDeliveries(s.links)[k];
      }
    }
  }

  lemma InvoiceStatusHolds(s: Shop, order: nat, ids: seq<nat>, o: nat)
    requires LinksOk(s) && RowsOk(s) && StatusesOk(s) && CanInvoice(s, order, ids) && order < |s.orders|
    requires o < |s.orders| && AfterInvoice(s, order, ids).orders[o] == Invoiced
    requires RowsOk(AfterInvoice(s, order, ids))
    ensures FullyInvoiced(AfterInvoice(s, order, ids), o)
  {
    var s' := AfterInvoice(s, order, ids);
    var linked := s.(links := s.links + LinkRows(s.invoices, order, ids), invoices := s.invoices + 1);
    InvoiceKeepsLinks(s, order, ids);
    forall i | 0 <= i < |s'.items| && s'.items[i].order == o ensures InvoicedQuantity(s', i) >= s'.items[i].delivered {
      if o == order {
        SumEqual(ShippedBy(s', i), ShippedBy(linked, i), LinkedDeliveries(linked.links));
      } else {
        assert FullyInvoiced(s, o);
        InvoicedGrows(s, s', i);
      }
    }
  }

  predicate IsQuiet(step: Step) {
    step.CreateOrder? || step.ConfirmOrder? || step.CancelOrder? || step.CreateDelivery? || step.CancelDelivery?
  }

  lemma QuietKeepsRows(t: State, step: Step, t': State)
    requires Inv(t) && Next(t, step, t') && IsQuiet(step)
    ensures RowsOk(t'.shop)
    ensures forall d: nat, o: nat | d < |t'.shop.deliveries| ::
              IsConfirmedOf(t'.shop, o, d) <==> IsConfirmedOf(t.shop, o, d)
  {
    var s, s' := t.shop, t'.shop;
    forall d: nat | d < |s'.deliveries| ensures DeliveryRowOk(s', s'.deliveries[d]) {
      if d < |s.deliveries| {
        assert DeliveryRowOk(s, s.deliveries[d]);
      }
    }
    if step.CreateOrder? {
      assert forall k | 0 <= k < |step.quantities| :: step.quantities[k] in step.quantities;
    }
  }

  lemma QuietKeepsItems(t: State, step: Step, t': State, i: nat)
    requires Inv(t) && Next(t, step, t') && IsQuiet(step) && i < |t'.shop.items|
    ensures t'.shop.items[i].delivered == DeliveredQuantity(t'.shop, t'.shop.items[i].order, i)
    ensures i < |t.shop.items| ==> t'.shop.items[i] == t.shop.items[i]
                                   && InvoicedQuantity(t'.shop, i) == InvoicedQuantity(t.shop, i)
  {
    var s, s' := t.shop, t'.shop;
    QuietKeepsRows(t, step, t');
    if i < |s.items| {
      DeliveredSame(s, s', s.items[i].order, i);
      InvoicedGrows(s, s', i);
    } else {
      SumZero(ConfirmedFor(s', |s.orders|, i), Ids(|s'.deliveries|));
    }
  }

  lemma QuietKeepsStatuses(t: State, step: Step, t': State)
    requires Inv(t) && Next(t, step, t') && IsQuiet(step)
    ensures StatusesOk(t'.shop)
  {
    var s, s' := t.shop, t'.shop;
    forall i | 0 <= i < |s.items|
      ensures s'.items[i] == s.items[i] && InvoicedQuantity(s', i) == InvoicedQuantity(s, i)
    {
      QuietKeepsItems(t, step, t', i);
    }
    forall o: nat | o < |s'.orders| ensures s'.orders[o] == Delivered ==> AllDelivered(s', o)
                                    ensures s'.orders[o] == Invoiced ==> FullyInvoiced(s', o) {
      if o < |s.orders| && s.orders[o] == s'.orders[o] {
        assert s.orders[o] == Delivered ==> AllDelivered(s, o);
        assert s.orders[o] == Invoiced ==> FullyInvoiced(s, o);
      }
    }
  }

  lemma QuietKeepsLinks(t: State, step: Step, t': State)
    requires Inv(t) && Next(t, step, t') && IsQuiet(step)
    ensures LinksOk(t'.shop)
  {
    var s, s' := t.shop, t'.shop;
    QuietKeepsRows(t, step, t');
    forall k | 0 <= k < |s'.links| ensures IsConfirmedOf(s', s'.links[k].order, s'.links[k].delivery) {
      assert IsConfirmedOf(s, s.links[k].order, s.links[k].delivery);
    }
  }

  lemma QuietKeepsHeld(t: State, step: Step, t': State)
    requires Inv(t) && Next(t, step, t') && IsQuiet(step)
    ensures HeldOk(t')
  {
  }

  /** Steps that confirm and invoice nothing: rows are added or statuses changed. */
  lemma QuietStepKeeps(t: State, step: Step, t': State)
    requires Inv(t) && Next(t, step, t') && IsQuiet(step)
    ensures Inv(t')
  {
    QuietKeepsRows(t, step, t');
    QuietKeepsLinks(t, step, t');
    QuietKeepsHeld(t, step, t');
    QuietKeepsStatuses(t, step, t');
    forall i | 0 <= i < |t'.shop.items|
      ensures t'.shop.items[i].delivered == DeliveredQuantity(t'.shop, t'.shop.items[i].order, i)
    {
      QuietKeepsItems(t, step, t', i);
    }
  }

  lemma StepKeepsInv(t: State, step: Step, t': State)
    requires Inv(t) && Next(t, step, t')
    ensures Inv(t')
  {
    match step
    case Commit(order) =>
      match t.held[order] {
        case Invoicing(ids) => CommitInvoiceKeeps(t, order, ids, t');
        case Confirming(d) => CommitConfirmKeeps(t, order, d, t');
      }
    case BeginInvoice(_, _) =>
    case BeginConfirm(_) =>
    case Abort(_) =>
    case _ => QuietStepKeeps(t, step, t');
  }

  const START: State := State(Shop([], [], [], 0, []), map[])

  ghost predicate Run(states: seq<State>, steps: seq<Step>) {
    && |states| == |steps| + 1 && states[0] == START
    && forall k | 0 <= k < |steps| :: Next(states[k], steps[k], states[k + 1])
  }

  lemma {:induction false} RunKeepsInv(states: seq<State>, steps: seq<Step>)
    requires Run(states, steps)
    ensures Inv(states[|steps|])
    decreases steps
  {
    if steps != [] {
      var n := |steps| - 1;
      assert Run(states[..n + 1], steps[..n]);
      RunKeepsInv(states[..n + 1], steps[..n]);
      StepKeepsInv(states[n], steps[n], states[n + 1]);
    }
  }

  // ------------------------------------------------------------------
  // Main results
  // ------------------------------------------------------------------

  /** In every reachable state each delivery is on at most one invoice, of its own
      order, and was confirmed. */
  lemma DeliveryInvoicedOnce(states: seq<State>, steps: seq<Step>, k: nat, m: nat)
    requires Run(states, steps)
    requires k < |states[|steps|].shop.links| && m < |states[|steps|].shop.links|
    requires states[|steps|].shop.links[k].delivery == states[|steps|].shop.links[m].delivery
    ensures k == m
    ensures IsConfirmedOf(states[|steps|].shop, states[|steps|].shop.links[k].order,
                          states[|steps|].shop.links[k].delivery)
  {
    RunKeepsInv(states, steps);
  }

  function OpenFor(s: Shop, order: nat, i: nat): nat -> int {
    (d: nat) => if OnInvoice(s, d) then 0 else ConfirmedFor(s, order, i)(d)
  }

  function ForeignFor(s: Shop, order: nat, i: nat): nat -> int {
    (d: nat) => if IsConfirmedOf(s, order, d) then 0 else ShippedBy(s, i)(d)
  }

  /** Delivered for the order and not yet invoiced. */
  function OpenQuantity(s: Shop, i: nat): int
    requires i < |s.items|
  {
    Sum(OpenFor(s, s.items[i].order, i), Ids(|s.deliveries|))
  }

  /** Invoiced from deliveries of other orders that name this item. */
  function ForeignQuantity(s: Shop, i: nat): int
    requires i < |s.items|
  {
    Sum(ForeignFor(s, s.items[i].order, i), LinkedDeliveries(s.links))
  }

  /** The exact gap between the two stored views of an item. */
  lemma InvoicedVersusDelivered(t: State, i: nat)
    requires Inv(t) && i < |t.shop.items|
    ensures InvoicedQuantity(t.shop, i) + OpenQuantity(t.shop, i)
            == t.shop.items[i].delivered + ForeignQuantity(t.shop, i)
    ensures OpenQuantity(t.shop, i) >= 0 && ForeignQuantity(t.shop, i) >= 0
  {
    var s := t.shop;
    var o := s.items[i].order;
    var ids, all := LinkedDeliveries(s.links), Ids(|s.deliveries|);
    assert forall k | 0 <= k < |s.links| :: IsConfirmedOf(s, s.links[k].order, s.links[k].delivery);
    DistinctSum(ConfirmedFor(s, o, i), ids, |s.deliveries|);
    SumPlus(ConfirmedFor(s, o, i), ForeignFor(s, o, i), ShippedBy(s, i), ids);
    SumPlus(Only(ConfirmedFor(s, o, i), ids), OpenFor(s, o, i), ConfirmedFor(s, o, i), all);
    LinesNonNegative(s, i);
    SumNonNegative(OpenFor(s, o, i), all);
    SumNonNegative(ForeignFor(s, o, i), ids);
  }

  /** Every delivery line names an item of the delivery's own order. */
  ghost predicate OwnLines(s: Shop) {
    forall d, l | 0 <= d < |s.deliveries| && l in s.deliveries[d].lines && l.item < |s.items| ::
      s.items[l.item].order == s.deliveries[d].order
  }

  lemma OwnLinesShipNothingElse(s: Shop, d: nat, i: nat)
    requires RowsOk(s) && OwnLines(s)
    requires d < |s.deliveries| && i < |s.items| && s.deliveries[d].order != s.items[i].order
    ensures ShippedBy(s, i)(d) == 0
  {
    SumZero(LineFor(i), s.deliveries[d].lines);
  }

  lemma NothingForeign(t: State, i: nat)
    requires Inv(t) && OwnLines(t.shop) && i < |t.shop.items|
    ensures ForeignQuantity(t.shop, i) == 0
  {
    var s := t.shop;
    var ids := LinkedDeliveries(s.links);
    forall d | d in ids ensures ForeignFor(s, s.items[i].order, i)(d) == 0 {
      var k :| 0 <= k < |ids| && ids[k] == d;
      assert IsConfirmedOf(s, s.links[k].order, s.links[k].delivery);
      if s.deliveries[d].order != s.items[i].order {
        OwnLinesShipNothingElse(s, d, i);
      }
    }
    SumZero(ForeignFor(s, s.items[i].order, i), ids);
  }

  /** Nothing is invoiced beyond what was delivered exactly when the invoiced
      lines of other orders fit into what is still open; with own lines always. */
  lemma InvoicedWithinDeliveredIff(states: seq<State>, steps: seq<Step>, i: nat)
    requires Run(states, steps) && i < |states[|steps|].shop.items|
    ensures var s := states[|steps|].shop;
            && s.items[i].delivered == DeliveredQuantity(s, s.items[i].order, i)
            && (InvoicedQuantity(s, i) <= s.items[i].delivered <==> ForeignQuantity(s, i) <= OpenQuantity(s, i))
            && (OwnLines(s) ==> InvoicedQuantity(s, i) <= s.items[i].delivered)
  {
    RunKeepsInv(states, steps);
    InvoicedVersusDelivered(states[|steps|], i);
    if OwnLines(states[|steps|].shop) {
      NothingForeign(states[|steps|], i);
    }
  }

  /** An open delivery leaves some quantity of some item of its order open. */
  lemma OpenDeliveryShows(t: State, d: nat, o: nat) returns (i: nat)
    requires Inv(t) && OwnLines(t.shop) && IsConfirmedOf(t.shop, o, d) && !OnInvoice(t.shop, d)
    ensures i < |t.shop.items| && t.shop.items[i].order == o && OpenQuantity(t.shop, i) > 0
  {
    var s := t.shop;
    assert DeliveryRowOk(s, s.deliveries[d]);
    var l := s.deliveries[d].lines[0];
    assert l in s.deliveries[d].lines;
    i := l.item;
    LinesNonNegative(s, i);
    PositiveLine(s.deliveries[d].lines, i);
    PositiveTerm(OpenFor(s, o, i), Ids(|s.deliveries|), d);
  }

  lemma {:induction false} PositiveLine(lines: seq<Line>, i: nat)
    requires lines != [] && lines[0].item == i && forall l | l in lines :: l.quantity > 0
    ensures LineQuantity(lines, i) > 0
  {
    assert lines == lines[..1] + lines[1..];
    SumConcat(LineFor(i), lines[..1], lines[1..]);
    assert lines[..1] == [] + [lines[0]];
    SumAppend(LineFor(i), [], lines[0]);
    SumNonNegative(LineFor(i), lines[1..]);
  }

  lemma {:induction false} PositiveTerm(f: nat -> int, ids: seq<nat>, k: nat)
    requires k < |ids| && f(ids[k]) > 0 && forall d | d in ids :: f(d) >= 0
    ensures Sum(f, ids) > 0
  {
    var m := |ids| - 1;
    assert ids[m] in ids;
    if k == m {
      SumNonNegative(f, ids[..m]);
    } else {
      PositiveTerm(f, ids[..m], k);
    }
  }

  /** With own lines, "fully invoiced" means that no confirmed delivery is left. */
  lemma FullyInvoicedIff(t: State, o: nat)
    requires Inv(t) && OwnLines(t.shop)
    ensures FullyInvoiced(t.shop, o) <==> forall d: nat | IsConfirmedOf(t.shop, o, d) :: OnInvoice(t.shop, d)
  {
    var s := t.shop;
    forall i | 0 <= i < |s.items| && s.items[i].order == o
      ensures InvoicedQuantity(s, i) + OpenQuantity(s, i) == s.items[i].delivered
    {
      InvoicedVersusDelivered(t, i);
      NothingForeign(t, i);
    }
    if forall d: nat | IsConfirmedOf(s, o, d) :: OnInvoice(s, d) {
      forall i | 0 <= i < |s.items| && s.items[i].order == o ensures OpenQuantity(s, i) == 0 {
        SumZero(OpenFor(s, o, i), Ids(|s.deliveries|));
      }
    } else {
      var d: nat :| IsConfirmedOf(s, o, d) && !OnInvoice(s, d);
      var i := OpenDeliveryShows(t, d, o);
      assert InvoicedQuantity(s, i) < s.items[i].delivered;
    }
  }

  /** Invoicing marks the order 'invoiced' exactly when this leaves no confirmed
      delivery without an invoice, and 'partial' otherwise. */
  lemma InvoicedStatusIff(t: State, order: nat, ids: seq<nat>, t': State)
    requires Inv(t) && OwnLines(t.shop)
    requires Next(t, Commit(order), t') && t.held[order] == Invoicing(ids)
    ensures t'.shop.orders[order] == (if forall d: nat | IsConfirmedOf(t'.shop, order, d) :: OnInvoice(t'.shop, d)
                                      then Invoiced else Partial)
  {
    StepKeepsInv(t, Commit(order), t');
    FullyInvoicedIff(t', order);
    var s, s' := t.shop, t'.shop;
    var linked := s.(links := s'.links, invoices := s'.invoices);
    forall i | 0 <= i < |s.items| ensures InvoicedQuantity(linked, i) == InvoicedQuantity(s', i) {
      SumEqual(ShippedBy(s', i), ShippedBy(linked, i), LinkedDeliveries(s'.links));
    }
  }

  /** An invoiced order is frozen: its items, status and confirmed deliveries never change again. */
  lemma InvoicedIsFinal(t: State, step: Step, t': State, o: nat)
    requires Inv(t) && Next(t, step, t') && o < |t.shop.orders| && t.shop.orders[o] == Invoiced
    ensures o < |t'.shop.orders| && t'.shop.orders[o] == Invoiced
    ensures forall d: nat :: IsConfirmedOf(t'.shop, o, d) <==> IsConfirmedOf(t.shop, o, d)
    ensures forall i | 0 <= i < |t.shop.items| && t.shop.items[i].order == o ::
              i < |t'.shop.items| && t'.shop.items[i] == t.shop.items[i]
  {
    assert o !in t.held;
  }

  lemma {:induction false} InvoicedForever(states: seq<State>, steps: seq<Step>, k: nat, o: nat)
    requires Run(states, steps) && k <= |steps|
    requires o < |states[k].shop.orders| && states[k].shop.orders[o] == Invoiced
    ensures o < |states[|steps|].shop.orders| && states[|steps|].shop.orders[o] == Invoiced
    ensures forall i | 0 <= i < |states[k].shop.items| && states[k].shop.items[i].order == o ::
              i < |states[|steps|].shop.items| && states[|steps|].shop.items[i] == states[k].shop.items[i]
    decreases steps
  {
    if k < |steps| {
      var n := |steps| - 1;
      assert Run(states[..n + 1], steps[..n]);
      InvoicedForever(states[..n + 1], steps[..n], k, o);
      RunKeepsInv(states[..n + 1], steps[..n]);
      InvoicedIsFinal(states[n], steps[n], states[n + 1], o);
    }
  }

  // ------------------------------------------------------------------
  // Two runs that end badly
  // ------------------------------------------------------------------

  /** Two orders for `want` each; one delivery of order 0, whose line names item
      `named`, is confirmed and invoiced. */
  function ShopAfter(named: nat, want: int, shipped: int, orders: seq<OrderStatus>, status: DeliveryStatus,
                     delivered: int, links: seq<Link>): Shop {
    Shop(orders, [Item(0, want, delivered), Item(1, want, 0)], [Delivery(0, status, [Line(named, shipped)])],
         |links|, links)
  }

  lemma OneShipped(s: Shop, order: nat, i: nat, l: Line)
    requires |s.deliveries| == 1 && s.deliveries[0].lines == [l]
    ensures ShippedBy(s, i)(0) == LineFor(i)(l)
    ensures DeliveredQuantity(s, order, i) == if IsConfirmedOf(s, order, 0) then LineFor(i)(l) else 0
  {
    SumOne(LineFor(i), s.deliveries[0].lines, l);
    SumOne(ConfirmedFor(s, order, i), Ids(1), 0);
  }

  lemma OneInvoiced(s: Shop, i: nat, l: Line)
    requires |s.deliveries| == 1 && s.deliveries[0].lines == [l] && |s.links| == 1 && s.links[0].delivery == 0
    ensures InvoicedQuantity(s, i) == LineFor(i)(l)
  {
    OneShipped(s, 0, i, l);
    SumOne(ShippedBy(s, i), LinkedDeliveries(s.links), 0);
  }

  lemma Extend(states: seq<State>, steps: seq<Step>, step: Step, t: State)
    requires Run(states, steps) && Next(states[|steps|], step, t)
    ensures Run(states + [t], steps + [step])
  {
  }

  lemma OrderRun(want: int, line: Line) returns (states: seq<State>, steps: seq<Step>)
    requires want > 0 && line.item < 2 && line.quantity > 0
    ensures Run(states, steps)
    ensures states[|steps|]
            == State(ShopAfter(line.item, want, line.quantity, [Confirmed, OrderDraft], DraftDelivery, 0, []), map[])
  {
    var a := Shop([OrderDraft], [Item(0, want, 0)], [], 0, []);
    var b := Shop([OrderDraft, OrderDraft], [Item(0, want, 0), Item(1, want, 0)], [], 0, []);
    var c := b.(orders := [Confirmed, OrderDraft]);
    var d := ShopAfter(line.item, want, line.quantity, [Confirmed, OrderDraft], DraftDelivery, 0, []);
    states, steps := [START], [];
    Extend(states, steps, CreateOrder([want]), State(a, map[]));
    states, steps := states + [State(a, map[])], steps + [CreateOrder([want])];
    Extend(states, steps, CreateOrder([want]), State(b, map[]));
    states, steps := states + [State(b, map[])], steps + [CreateOrder([want])];
    Extend(states, steps, ConfirmOrder(0), State(c, map[]));
    states, steps := states + [State(c, map[])], steps + [ConfirmOrder(0)];
    Extend(states, steps, CreateDelivery(0, [line]), State(d, map[]));
    states, steps := states + [State(d, map[])], steps + [CreateDelivery(0, [line])];
  }

  lemma ShortRun(named: nat, want: int, shipped: int) returns (states: seq<State>, steps: seq<Step>)
    requires named < 2 && 0 < shipped < want
    ensures Run(states, steps)
    ensures states[|steps|].shop.orders == [Invoiced, OrderDraft]
    ensures states[|steps|].shop.items == [Item(0, want, if named == 0 then shipped else 0), Item(1, want, 0)]
    ensures InvoicedQuantity(states[|steps|].shop, named) == shipped
  {
    var got := if named == 0 then shipped else 0;
    var after := if named == 0 then Partial else Confirmed;
    var d := ShopAfter(named, want, shipped, [Confirmed, OrderDraft], DraftDelivery, 0, []);
    var e := ShopAfter(named, want, shipped, [after, OrderDraft], ConfirmedDelivery, got, []);
    var f := ShopAfter(named, want, shipped, [Invoiced, OrderDraft], ConfirmedDelivery, got, [Link(0, 0, 0)]);
    states, steps := OrderRun(want, Line(named, shipped));
    Extend(states, steps, BeginConfirm(0), State(d, map[0 := Confirming(0)]));
    states, steps := states + [State(d, map[0 := Confirming(0)])], steps + [BeginConfirm(0)];
    ConfirmOnly(named, want, shipped, got, after);
    Extend(states, steps, Commit(0), State(e, map[]));
    states, steps := states + [State(e, map[])], steps + [Commit(0)];
    Extend(states, steps, BeginInvoice(0, [0]), State(e, map[0 := Invoicing([0])]));
    states, steps := states + [State(e, map[0 := Invoicing([0])])], steps + [BeginInvoice(0, [0])];
    InvoiceOnly(named, want, shipped, got, after);
    Extend(states, steps, Commit(0), State(f, map[]));
    states, steps := states + [State(f, map[])], steps + [Commit(0)];
    OneInvoiced(f, named, Line(named, shipped));
  }

  lemma ConfirmOnly(named: nat, want: int, shipped: int, got: int, after: OrderStatus)
    requires named < 2 && 0 < shipped < want
    requires got == (if named == 0 then shipped else 0) && after == (if named == 0 then Partial else Confirmed)
    ensures Next(State(ShopAfter(named, want, shipped, [Confirmed, OrderDraft], DraftDelivery, 0, []),
                       map[0 := Confirming(0)]),
                 Commit(0),
                 State(ShopAfter(named, want, shipped, [after, OrderDraft], ConfirmedDelivery, got, []), map[]))
  {
    var s := ShopAfter(named, want, shipped, [Confirmed, OrderDraft], DraftDelivery, 0, []);
    var s' := ShopAfter(named, want, shipped, [after, OrderDraft], ConfirmedDelivery, got, []);
    var moved := s.(deliveries := s.deliveries[0 := s.deliveries[0].(status := ConfirmedDelivery)]);
    OneShipped(moved, 0, 0, Line(named, shipped));
    assert IsConfirmedOf(moved, 0, 0);
    assert Recounted(moved, 0, s'.items);
    assert !AllDelivered(s', 0) by {
      assert s'.items[0].delivered < s'.items[0].quantity;
    }
    assert AnyDelivered(s', 0) <==> named == 0 by {
      assert s'.items[0].delivered == got;
    }
    assert DeliveryConfirmed(s, 0, s');
  }

  lemma InvoiceOnly(named: nat, want: int, shipped: int, got: int, after: OrderStatus)
    requires named < 2 && 0 < shipped < want
    requires got == (if named == 0 then shipped else 0) && after == (if named == 0 then Partial else Confirmed)
    ensures Next(State(ShopAfter(named, want, shipped, [after, OrderDraft], ConfirmedDelivery, got, []),
                       map[0 := Invoicing([0])]),
                 Commit(0),
                 State(ShopAfter(named, want, shipped, [Invoiced, OrderDraft], ConfirmedDelivery, got, [Link(0, 0, 0)]),
                       map[]))
  {
    var s := ShopAfter(named, want, shipped, [after, OrderDraft], ConfirmedDelivery, got, []);
    var linked := s.(links := s.links + LinkRows(0, 0, [0]), invoices := 1);
    OneInvoiced(linked, 0, Line(named, shipped));
    assert FullyInvoiced(linked, 0);
    assert CanInvoice(s, 0, [0]);
    assert AfterInvoice(s, 0, [0])
           == ShopAfter(named, want, shipped, [Invoiced, OrderDraft], ConfirmedDelivery, got, [Link(0, 0, 0)]);
  }

  /** Without own lines the bound fails: the delivery of one order is invoiced with
      a line of another, of which nothing was delivered. */
  lemma ForeignLineOverInvoices(want: int, shipped: int) returns (states: seq<State>, steps: seq<Step>)
    requires 0 < shipped < want
    ensures Run(states, steps) && !OwnLines(states[|steps|].shop)
    ensures |states[|steps|].shop.items| == 2
    ensures InvoicedQuantity(states[|steps|].shop, 1) > states[|steps|].shop.items[1].delivered
  {
    states, steps := ShortRun(1, want, shipped);
    RunKeepsInv(states, steps);
    if OwnLines(states[|steps|].shop) {
      InvoicedWithinDeliveredIff(states, steps, 1);
    }
  }

  /** A partly delivered order that is invoiced in between stays partly delivered:
      whatever happens next, its remaining quantity can never be delivered. */
  lemma RemainderStranded(want: int, shipped: int) returns (states: seq<State>, steps: seq<Step>)
    requires 0 < shipped < want
    ensures Run(states, steps)
    ensures forall more: seq<State>, rest: seq<Step> | Continues(states, steps, more, rest) ::
              more[|rest|].shop.orders != [] && more[|rest|].shop.items != []
              && more[|rest|].shop.orders[0] == Invoiced && more[|rest|].shop.items[0] == Item(0, want, shipped)
  {
    states, steps := ShortRun(0, want, shipped);
    forall more: seq<State>, rest: seq<Step> | Continues(states, steps, more, rest)
      ensures more[|rest|].shop.orders != [] && more[|rest|].shop.items != []
      ensures more[|rest|].shop.orders[0] == Invoiced && more[|rest|].shop.items[0] == Item(0, want, shipped)
    {
      assert more[|steps|].shop.items[0] == Item(0, want, shipped);
      InvoicedForever(more, rest, |steps|, 0);
    }
  }

  ghost predicate Continues(states: seq<State>, steps: seq<Step>, more: seq<State>, rest: seq<Step>) {
    Run(states, steps) && Run(more, rest) && |rest| >= |steps| && more[|steps|] == states[|steps|]
  }
}
