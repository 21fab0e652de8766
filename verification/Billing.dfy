/** Sales orders, their deliveries and their invoices, with any number of
    transactions in flight; each holds its order's row from its first read to its end. */
module Billing {
  import opened Common
  import opened Sums

  datatype OrderStatus = OrderDraft | Confirmed | Partial | Delivered | Invoiced | Cancelled

  datatype DeliveryStatus = DraftDelivery | ConfirmedDelivery | CancelledDelivery

  /** `delivered` is the stored quantity_delivered. */
  datatype Item = Item(order: nat, quantity: int, delivered: int)

  datatype Line = Line(item: nat, quantity: int)

  datatype Delivery = Delivery(order: nat, status: DeliveryStatus, lines: seq<Line>)

  /** customer_invoice_deliveries, with the order of the invoice. */
  datatype Link = Link(invoice: nat, order: nat, delivery: nat)

  /** Tables in insertion order; a row's id is its index. */
  datatype Shop = Shop(orders: seq<OrderStatus>, items: seq<Item>, deliveries: seq<Delivery>,
                       invoices: nat, links: seq<Link>)

  // ------------------------------------------------------------------
  // The queries
  // ------------------------------------------------------------------

  function LineFor(i: nat): Line -> int {
    (l: Line) => if l.item == i then l.quantity else 0
  }

  function LineQuantity(lines: seq<Line>, i: nat): int { Sum(LineFor(i), lines) }

  function ShippedBy(s: Shop, i: nat): nat -> int {
    (d: nat) => if d < |s.deliveries| then LineQuantity(s.deliveries[d].lines, i) else 0
  }

  function ConfirmedFor(s: Shop, order: nat, i: nat): nat -> int {
    (d: nat) => if IsConfirmedOf(s, order, d) then ShippedBy(s, i)(d) else 0
  }

  predicate IsConfirmedOf(s: Shop, order: nat, d: nat) {
    d < |s.deliveries| && s.deliveries[d].order == order && s.deliveries[d].status == ConfirmedDelivery
  }

  function Ids(n: nat): (ids: seq<nat>)
    ensures |ids| == n && (forall k | 0 <= k < n :: ids[k] == k) && forall k | k in ids :: k < n
  {
    seq(n, k requires 0 <= k < n => k)
  }

  /** updateDeliveredQuantity's query: confirmed deliveries of the order, grouped by item. */
  function DeliveredQuantity(s: Shop, order: nat, i: nat): int {
    Sum(ConfirmedFor(s, order, i), Ids(|s.deliveries|))
  }

  function LinkedDeliveries(links: seq<Link>): (ids: seq<nat>)
    ensures |ids| == |links| && forall k | 0 <= k < |links| :: ids[k] == links[k].delivery
  {
    seq(|links|, k requires 0 <= k < |links| => links[k].delivery)
  }

  /** createInvoice's query: lines of every invoiced delivery, grouped by item. */
  function InvoicedQuantity(s: Shop, i: nat): int {
    Sum(ShippedBy(s, i), LinkedDeliveries(s.links))
  }

  predicate OnInvoice(s: Shop, d: nat) { d in LinkedDeliveries(s.links) }

  // ------------------------------------------------------------------
  // Effects
  // ------------------------------------------------------------------

  predicate AllDelivered(s: Shop, order: nat) {
    forall i | 0 <= i < |s.items| && s.items[i].order == order :: s.items[i].delivered >= s.items[i].quantity
  }

  predicate AnyDelivered(s: Shop, order: nat) {
    exists i | 0 <= i < |s.items| :: s.items[i].order == order && s.items[i].delivered > 0
  }

  predicate FullyInvoiced(s: Shop, order: nat) {
    forall i | 0 <= i < |s.items| && s.items[i].order == order :: InvoicedQuantity(s, i) >= s.items[i].delivered
  }

  /** Every item of the order shows its confirmed deliveries; other items are untouched. */
  predicate Recounted(s: Shop, order: nat, items: seq<Item>) {
    && |items| == |s.items|
    && forall i | 0 <= i < |items| ::
         items[i] == if s.items[i].order == order
                     then s.items[i].(delivered := DeliveredQuantity(s, order, i))
                     else s.items[i]
  }

  predicate DeliveryConfirmed(s: Shop, d: nat, s': Shop)
    requires d < |s.deliveries| && s.deliveries[d].order < |s.orders|
  {
    var order := s.deliveries[d].order;
    var shipped := s.(deliveries := s.deliveries[d := s.deliveries[d].(status := ConfirmedDelivery)]);
    && Recounted(shipped, order, s'.items)
    && s' == shipped.(items := s'.items,
                      orders := s.orders[order := if AllDelivered(s', order) then Delivered
                                                  else if AnyDelivered(s', order) then Partial
                                                  else s.orders[order]])
  }

  /** createInvoice's checks under the order's lock; the ids arrive without duplicates. */
  predicate CanInvoice(s: Shop, order: nat, ids: seq<nat>) {
    && ids != [] && Distinct(ids)
    && forall d | d in ids :: IsConfirmedOf(s, order, d) && !OnInvoice(s, d)
  }

  function LinkRows(invoice: nat, order: nat, ids: seq<nat>): (rows: seq<Link>)
    ensures |rows| == |ids| && forall k | 0 <= k < |ids| :: rows[k] == Link(invoice, order, ids[k])
  {
    seq(|ids|, k requires 0 <= k < |ids| => Link(invoice, order, ids[k]))
  }

  function AfterInvoice(s: Shop, order: nat, ids: seq<nat>): Shop
    requires order < |s.orders|
  {
    var linked := s.(links := s.links + LinkRows(s.invoices, order, ids), invoices := s.invoices + 1);
    linked.(orders := s.orders[order := if FullyInvoiced(linked, order) then Invoiced else Partial])
  }

  // ------------------------------------------------------------------
  // Transitions
  // ------------------------------------------------------------------

  /** What a transaction holding an order's row is about to do. */
  datatype Task = Invoicing(ids: seq<nat>) | Confirming(delivery: nat)

  datatype State = State(shop: Shop, held: map<nat, Task>)

  datatype Step =
    | CreateOrder(quantities: seq<int>)
    | ConfirmOrder(order: nat)
    | CancelOrder(order: nat)
    | CreateDelivery(order: nat, lines: seq<Line>)
    | CancelDelivery(delivery: nat)
    | BeginInvoice(order: nat, ids: seq<nat>)
    | BeginConfirm(delivery: nat)
    | Commit(order: nat)
    | Abort(order: nat)

  function NewItems(order: nat, quantities: seq<int>): (items: seq<Item>)
    ensures |items| == |quantities| && forall i | 0 <= i < |items| :: items[i] == Item(order, quantities[i], 0)
  {
    seq(|quantities|, i requires 0 <= i < |quantities| => Item(order, quantities[i], 0))
  }

  predicate Invoiceable(o: OrderStatus) { o == Confirmed || o == Partial || o == Delivered }

  predicate Deliverable(o: OrderStatus) { o == Confirmed || o == Partial }

  predicate Next(t: State, step: Step, t': State) {
    var s, s' := t.shop, t'.shop;
    match step
    case CreateOrder(quantities) =>
      && quantities != [] && (forall q | q in quantities :: q > 0)
      && t' == t.(shop := s.(orders := s.orders + [OrderDraft], items := s.items + NewItems(|s.orders|, quantities)))
    case ConfirmOrder(order) =>
      && order < |s.orders| && order !in t.held && s.orders[order] == OrderDraft
      && t' == t.(shop := s.(orders := s.orders[order := Confirmed]))
    case CancelOrder(order) =>
      && order < |s.orders| && order !in t.held && s.orders[order] !in {Delivered, Invoiced, Cancelled}
      && t' == t.(shop := s.(orders := s.orders[order := Cancelled]))
    case CreateDelivery(order, lines) =>
      // the order's status is read before this transaction and may be stale
      && order < |s.orders| && lines != [] && (forall l | l in lines :: l.item < |s.items| && l.quantity > 0)
      && t' == t.(shop := s.(deliveries := s.deliveries + [Delivery(order, DraftDelivery, lines)]))
    case CancelDelivery(d) =>
      && d < |s.deliveries| && s.deliveries[d].status == DraftDelivery
      && (s.deliveries[d].order in t.held ==> t.held[s.deliveries[d].order] != Confirming(d))
      && t' == t.(shop := s.(deliveries := s.deliveries[d := s.deliveries[d].(status := CancelledDelivery)]))
    case BeginInvoice(order, ids) =>
      && order < |s.orders| && order !in t.held && Invoiceable(s.orders[order])
      && t' == t.(held := t.held[order := Invoicing(ids)])
    case BeginConfirm(d) =>
      && d < |s.deliveries| && s.deliveries[d].status == DraftDelivery
      && s.deliveries[d].order < |s.orders| && s.deliveries[d].order !in t.held
      && Deliverable(s.orders[s.deliveries[d].order])
      && t' == t.(held := t.held[s.deliveries[d].order := Confirming(d)])
    case Commit(order) =>
      && order < |s.orders| && order in t.held && t'.held == t.held - {order}
      && (match t.held[order]
          case Invoicing(ids) => CanInvoice(s, order, ids) && s' == AfterInvoice(s, order, ids)
          case Confirming(d) => d < |s.deliveries| && s.deliveries[d].order == order && DeliveryConfirmed(s, d, s'))
    case Abort(order) =>
      order in t.held && t' == t.(held := t.held - {order})
  }

  // ------------------------------------------------------------------
  // Invariant
  // ------------------------------------------------------------------

  ghost predicate LinksOk(s: Shop) {
    && (forall k, m | 0 <= k < m < |s.links| :: s.links[k].delivery != s.links[m].delivery)
    && (forall k | 0 <= k < |s.links| ::
          IsConfirmedOf(s, s.links[k].order, s.links[k].delivery) && s.links[k].invoice < s.invoices)
  }

  ghost predicate RowsOk(s: Shop) {
    && (forall i | 0 <= i < |s.items| :: s.items[i].order < |s.orders| && s.items[i].quantity > 0)
    && (forall d | 0 <= d < |s.deliveries| :: s.deliveries[d].order < |s.orders| && DeliveryRowOk(s, s.deliveries[d]))
  }

  ghost predicate DeliveryRowOk(s: Shop, d: Delivery) {
    d.lines != [] && forall l | l in d.lines :: l.item < |s.items| && l.quantity > 0
  }

  ghost predicate CountsOk(s: Shop) {
    forall i | 0 <= i < |s.items| :: s.items[i].delivered == DeliveredQuantity(s, s.items[i].order, i)
  }

  ghost predicate StatusesOk(s: Shop) {
    && (forall o: nat | o < |s.orders| && s.orders[o] == Delivered :: AllDelivered(s, o))
    && (forall o: nat | o < |s.orders| && s.orders[o] == Invoiced :: FullyInvoiced(s, o))
  }

  ghost predicate HeldOk(t: State) {
    forall o | o in t.held ::
      && o < |t.shop.orders|
      && match t.held[o]
         case Invoicing(_) => Invoiceable(t.shop.orders[o])
         case Confirming(d) =>
           && Deliverable(t.shop.orders[o]) && d < |t.shop.deliveries|
           && t.shop.deliveries[d].order == o && t.shop.deliveries[d].status == DraftDelivery
  }

  ghost predicate Inv(t: State) {
    LinksOk(t.shop) && RowsOk(t.shop) && CountsOk(t.shop) && StatusesOk(t.shop) && HeldOk(t)
  }
}
