/** How far an order is: the statuses that confirming a delivery gives it, and that an
    order may be delivered in parts and then invoiced. */
module OrderProgress {
  import opened Common
  import opened Sums
  import opened Billing
  import opened BillingInvariant

  /** What the confirmed deliveries of an order bring of an item. */
  function Brought(deliveries: seq<Delivery>, order: nat, i: nat): int {
    if deliveries == [] then 0 else
      var d := deliveries[|deliveries| - 1];
      Brought(deliveries[..|deliveries| - 1], order, i)
      + if d.order == order && d.status == ConfirmedDelivery then LineQuantity(d.lines, i) else 0
  }

  lemma {:induction false} BroughtIsDelivered(s: Shop, deliveries: seq<Delivery>, order: nat, i: nat)
    requires deliveries <= s.deliveries
    ensures Brought(deliveries, order, i) == Sum(ConfirmedFor(s, order, i), Ids(|deliveries|))
    decreases deliveries
  {
    if deliveries != [] {
      var m := |deliveries| - 1;
      BroughtIsDelivered(s, deliveries[..m], order, i);
      assert Ids(|deliveries|) == Ids(m) + [m];
      SumAppend<nat>(ConfirmedFor(s, order, i), Ids(m), m);
      assert deliveries[m] == s.deliveries[m];
      assert ShippedBy(s, i)(m) == LineQuantity(s.deliveries[m].lines, i);
    }
  }

  /** Confirming a delivery makes its order delivered exactly when every item of it has
      been brought in full, and partly delivered otherwise as soon as anything has been
      brought; an order of which nothing of its own was brought stays as it was. */
  lemma ConfirmedStatusIff(t: State, o: nat, d: nat, t': State)
    requires Inv(t) && o in t.held && t.held[o] == Confirming(d) && Next(t, Commit(o), t')
    ensures var s, s' := t.shop, t'.shop;
            var all := forall i | 0 <= i < |s'.items| && s'.items[i].order == o ::
                         Brought(s'.deliveries, o, i) >= s'.items[i].quantity;
            var some := exists i | 0 <= i < |s'.items| :: s'.items[i].order == o && Brought(s'.deliveries, o, i) > 0;
            && o < |s'.orders| == |s.orders|
            && s'.orders[o] == (if all then Delivered else if some then Partial else s.orders[o])
            && forall i | 0 <= i < |s'.items| && s'.items[i].order == o ::
                 s'.items[i].delivered == Brought(s'.deliveries, o, i)
  {
    var s, s' := t.shop, t'.shop;
    var moved := s.(deliveries := s.deliveries[d := s.deliveries[d].(status := ConfirmedDelivery)]);
    assert moved.deliveries == s'.deliveries;
    forall i | 0 <= i < |s'.items| && s'.items[i].order == o
      ensures s'.items[i].delivered == Brought(s'.deliveries, o, i)
    {
      BroughtIsDelivered(moved, moved.deliveries, o, i);
    }
  }

  /** The ways in which an order's status changes. */
  predicate Moves(from: OrderStatus, to: OrderStatus) {
    match from
    case OrderDraft => to == Confirmed || to == Cancelled
    case Confirmed => to == Partial || to == Delivered || to == Invoiced || to == Cancelled
    case Partial => to == Delivered || to == Invoiced || to == Cancelled
    case Delivered => to == Partial || to == Invoiced
    case Invoiced => false
    case Cancelled => false
  }

  /** No step of any transaction changes a status in another way; only confirmed and
      partly delivered orders change what is delivered of their items. */
  lemma StatusMoves(t: State, step: Step, t': State, o: nat)
    requires Inv(t) && Next(t, step, t') && o < |t.shop.orders|
    ensures o < |t'.shop.orders|
    ensures t'.shop.orders[o] == t.shop.orders[o] || Moves(t.shop.orders[o], t'.shop.orders[o])
    ensures t.shop.orders[o] != Confirmed && t.shop.orders[o] != Partial ==>
              forall i | 0 <= i < |t.shop.items| && t.shop.items[i].order == o ::
                i < |t'.shop.items| && t'.shop.items[i] == t.shop.items[i]
  {
    if o in t.held {
      match t.held[o]
      case Invoicing(_) =>
      case Confirming(_) =>
    }
  }

  /** A cancelled order stays so, and nothing more is delivered of it. */
  lemma {:induction false} CancelledForever(states: seq<State>, steps: seq<Step>, k: nat, o: nat)
    requires Run(states, steps) && k <= |steps|
    requires o < |states[k].shop.orders| && states[k].shop.orders[o] == Cancelled
    ensures o < |states[|steps|].shop.orders| && states[|steps|].shop.orders[o] == Cancelled
    ensures forall i | 0 <= i < |states[k].shop.items| && states[k].shop.items[i].order == o ::
              i < |states[|steps|].shop.items| && states[|steps|].shop.items[i] == states[k].shop.items[i]
    decreases steps
  {
    if k < |steps| {
      var n := |steps| - 1;
      assert Run(states[..n + 1], steps[..n]);
      CancelledForever(states[..n + 1], steps[..n], k, o);
      RunKeepsInv(states[..n + 1], steps[..n]);
      StatusMoves(states[n], steps[n], states[n + 1], o);
    }
  }

  // ------------------------------------------------------------------
  // An order delivered in two parts
  // ------------------------------------------------------------------

  /** One order for one item, of which `delivered` is recorded. */
  function OneItem(want: int, delivered: int, status: OrderStatus, deliveries: seq<Delivery>, links: seq<Link>): Shop {
    Shop([status], [Item(0, want, delivered)], deliveries, if links == [] then 0 else 1, links)
  }

  function Part(status: DeliveryStatus, quantity: int): Delivery { Delivery(0, status, [Line(0, quantity)]) }

  lemma OneLine(quantity: int)
    ensures LineQuantity([Line(0, quantity)], 0) == quantity
  {
    SumOne(LineFor(0), [Line(0, quantity)], Line(0, quantity));
  }

  lemma BroughtNext(deliveries: seq<Delivery>, d: Delivery)
    ensures Brought(deliveries + [d], 0, 0) == Brought(deliveries, 0, 0)
              + if d.order == 0 && d.status == ConfirmedDelivery then LineQuantity(d.lines, 0) else 0
  {
    assert (deliveries + [d])[..|deliveries|] == deliveries;
  }

  lemma BroughtTogether(earlier: seq<Delivery>, before: int, quantity: int)
    requires earlier == if before == 0 then [] else [Part(ConfirmedDelivery, before)]
    ensures Brought(earlier + [Part(ConfirmedDelivery, quantity)], 0, 0) == before + quantity
  {
    OneLine(before);
    OneLine(quantity);
    BroughtNext(earlier, Part(ConfirmedDelivery, quantity));
    if before != 0 {
      BroughtNext([], Part(ConfirmedDelivery, before));
      assert [] + [Part(ConfirmedDelivery, before)] == earlier;
    }
  }

  /** The recount after the last delivery. */
  lemma PartRecounted(s: Shop, earlier: seq<Delivery>, before: int, quantity: int)
    requires before >= 0 && quantity > 0 && |s.items| == 1 && s.items[0].order == 0
    requires earlier == if before == 0 then [] else [Part(ConfirmedDelivery, before)]
    requires s.deliveries == earlier + [Part(ConfirmedDelivery, quantity)]
    ensures Recounted(s, 0, [s.items[0].(delivered := before + quantity)])
  {
    BroughtTogether(earlier, before, quantity);
    BroughtIsDelivered(s, s.deliveries, 0, 0);
  }

  /** Confirming the last delivery, on top of `before` brought by the earlier one, if any. */
  lemma PartConfirmed(want: int, earlier: seq<Delivery>, before: int, quantity: int, status: OrderStatus)
    requires before >= 0 && quantity > 0 && before + quantity <= want
    requires earlier == if before == 0 then [] else [Part(ConfirmedDelivery, before)]
    ensures var d, all := |earlier|, before + quantity;
            var after := if all == want then Delivered else Partial;
            Next(State(OneItem(want, before, status, earlier + [Part(DraftDelivery, quantity)], []),
                       map[0 := Confirming(d)]),
                 Commit(0),
                 State(OneItem(want, all, after, earlier + [Part(ConfirmedDelivery, quantity)], []), map[]))
  {
    var d, all := |earlier|, before + quantity;
    var s := OneItem(want, before, status, earlier + [Part(DraftDelivery, quantity)], []);
    var s' := OneItem(want, all, if all == want then Delivered else Partial,
                      earlier + [Part(ConfirmedDelivery, quantity)], []);
    var moved := s.(deliveries := s.deliveries[d := s.deliveries[d].(status := ConfirmedDelivery)]);
    assert moved.deliveries == s'.deliveries;
    PartRecounted(moved, earlier, before, quantity);
    assert s'.items == [moved.items[0].(delivered := all)];
    assert s'.items[0].delivered == all;
    assert DeliveryConfirmed(s, d, s');
  }

  lemma BothInvoiced(a: int, b: int)
    requires a > 0 && b > 0
    ensures var deliveries := [Part(ConfirmedDelivery, a), Part(ConfirmedDelivery, b)];
            Next(State(OneItem(a + b, a + b, Delivered, deliveries, []), map[0 := Invoicing([0, 1])]), Commit(0),
                 State(OneItem(a + b, a + b, Invoiced, deliveries, [Link(0, 0, 0), Link(0, 0, 1)]), map[]))
  {
    var deliveries := [Part(ConfirmedDelivery, a), Part(ConfirmedDelivery, b)];
    var s := OneItem(a + b, a + b, Delivered, deliveries, []);
    var linked := s.(links := s.links + LinkRows(0, 0, [0, 1]), invoices := 1);
    OneLine(a);
    OneLine(b);
    assert LinkedDeliveries(linked.links) == [0] + [1];
    SumOne(ShippedBy(linked, 0), [0], 0);
    SumAppend(ShippedBy(linked, 0), [0], 1);
    assert FullyInvoiced(linked, 0);
    assert CanInvoice(s, 0, [0, 1]);
    assert linked.links == [Link(0, 0, 0), Link(0, 0, 1)];
  }

  lemma SecondPart(states: seq<State>, steps: seq<Step>, a: int, b: int)
    returns (states': seq<State>, steps': seq<Step>)
    requires Run(states, steps) && a > 0 && b > 0
    requires states[|steps|] == State(OneItem(a + b, a, Partial, [Part(ConfirmedDelivery, a)], []), map[])
    ensures Run(states', steps') && states <= states' && |steps'| > |steps|
    ensures states'[|steps'|] == State(OneItem(a + b, a + b, Delivered, [Part(ConfirmedDelivery, a)]
                                               + [Part(ConfirmedDelivery, b)], []), map[])
  {
    var earlier, want := [Part(ConfirmedDelivery, a)], a + b;
    var partly := OneItem(want, a, Partial, earlier + [Part(DraftDelivery, b)], []);
    states', steps' := Then(states, steps, CreateDelivery(0, [Line(0, b)]), State(partly, map[]));
    states', steps' := Then(states', steps', BeginConfirm(1), State(partly, map[0 := Confirming(1)]));
    PartConfirmed(want, earlier, a, b, Partial);
    states', steps' := Then(states', steps', Commit(0),
                            State(OneItem(want, want, Delivered, earlier + [Part(ConfirmedDelivery, b)], []), map[]));
  }

  /** For every split of a quantity: after the first part the order is partly delivered
      and may be delivered further, after the second it is delivered, and an invoice
      over both parts completes it. */
  lemma DeliveredInParts(a: int, b: int) returns (states: seq<State>, steps: seq<Step>, first: nat, second: nat)
    requires a > 0 && b > 0
    ensures Run(states, steps) && first < second < |steps|
    ensures states[first].shop.orders == [Partial] && states[first].shop.items == [Item(0, a + b, a)]
    ensures states[second].shop.orders == [Delivered] && states[second].shop.items == [Item(0, a + b, a + b)]
    ensures states[|steps|].shop.orders == [Invoiced] && InvoicedQuantity(states[|steps|].shop, 0) == a + b
  {
    var want := a + b;
    states, steps := [START], [];
    states, steps := Then(states, steps, CreateOrder([want]), State(OneItem(want, 0, OrderDraft, [], []), map[]));
    states, steps := Then(states, steps, ConfirmOrder(0), State(OneItem(want, 0, Confirmed, [], []), map[]));
    states, steps := FirstPart(states, steps, a, want);
    first := |steps|;
    states, steps := SecondPart(states, steps, a, b);
    second := |steps|;
    states, steps := InvoiceBoth(states, steps, a, b);
  }

  lemma Then(states: seq<State>, steps: seq<Step>, step: Step, t: State)
    returns (states': seq<State>, steps': seq<Step>)
    requires Run(states, steps) && Next(states[|steps|], step, t)
    ensures states' == states + [t] && steps' == steps + [step]
    ensures Run(states', steps')
  {
    Extend(states, steps, step, t);
    states', steps' := states + [t], steps + [step];
  }

  lemma FirstPart(states: seq<State>, steps: seq<Step>, a: int, want: int)
    returns (states': seq<State>, steps': seq<Step>)
    requires Run(states, steps) && 0 < a < want
    requires states[|steps|] == State(OneItem(want, 0, Confirmed, [], []), map[])
    ensures Run(states', steps')
    ensures states'[|steps'|] == State(OneItem(want, a, Partial, [Part(ConfirmedDelivery, a)], []), map[])
  {
    var begun := OneItem(want, 0, Confirmed, [Part(DraftDelivery, a)], []);
    states', steps' := Then(states, steps, CreateDelivery(0, [Line(0, a)]), State(begun, map[]));
    states', steps' := Then(states', steps', BeginConfirm(0), State(begun, map[0 := Confirming(0)]));
    PartConfirmed(want, [], 0, a, Confirmed);
    assert [] + [Part(DraftDelivery, a)] == [Part(DraftDelivery, a)];
    assert [] + [Part(ConfirmedDelivery, a)] == [Part(ConfirmedDelivery, a)];
    states', steps' := Then(states', steps', Commit(0),
                            State(OneItem(want, a, Partial, [Part(ConfirmedDelivery, a)], []), map[]));
  }

  lemma InvoiceBoth(states: seq<State>, steps: seq<Step>, a: int, b: int)
    returns (states': seq<State>, steps': seq<Step>)
    requires Run(states, steps) && a > 0 && b > 0
    requires states[|steps|] == State(OneItem(a + b, a + b, Delivered, [Part(ConfirmedDelivery, a)]
                                              + [Part(ConfirmedDelivery, b)], []), map[])
    ensures Run(states', steps') && |states'| > |states| && states'[..|states|] == states && |steps'| > |steps|
    ensures states'[|steps'|].shop.orders == [Invoiced] && InvoicedQuantity(states'[|steps'|].shop, 0) == a + b
  {
    var deliveries := [Part(ConfirmedDelivery, a), Part(ConfirmedDelivery, b)];
    var both := OneItem(a + b, a + b, Delivered, deliveries, []);
    assert [Part(ConfirmedDelivery, a)] + [Part(ConfirmedDelivery, b)] == deliveries;
    states', steps' := Then(states, steps, BeginInvoice(0, [0, 1]), State(both, map[0 := Invoicing([0, 1])]));
    BothInvoiced(a, b);
    var done := OneItem(a + b, a + b, Invoiced, deliveries, [Link(0, 0, 0), Link(0, 0, 1)]);
    states', steps' := Then(states', steps', Commit(0), State(done, map[]));
    OneLine(a);
    OneLine(b);
    assert LinkedDeliveries(done.links) == [0] + [1];
    SumOne(ShippedBy(done, 0), [0], 0);
    SumAppend(ShippedBy(done, 0), [0], 1);
  }
}
