/** On-hand stock as a signed sum over confirmed movement items
    (src/database/stock-lock.ts and the stock_summary view). */
module StockLedger {
  import opened Common
  import opened Sums

  datatype Direction = In | Out | Transfer

  datatype StockKey = StockKey(variant: Id, warehouse: Id, batch: Option<Id>)

  /** Quantities are NUMERIC(18,4), kept as integers scaled by 10^4; the table
      checks that they are positive. */
  type Quantity = n: int | n > 0 witness 1

  datatype Item = Item(variant: Id, batch: Option<Id>, from: Option<Id>, to: Option<Id>, quantity: Quantity)

  /** The business document that a movement carries out (reference_type, reference_id). */
  datatype Source = Source(kind: string, id: Id)

  datatype Movement = Movement(direction: Direction, source: Option<Source>, items: seq<Item>)

  /** The CASE expression of getStockOnHand, with its WHERE filter first. */
  function Delta(d: Direction, it: Item, k: StockKey): int {
    if it.variant != k.variant || it.batch != k.batch then 0
    else if d == In && it.to == Some(k.warehouse) then it.quantity
    else if d == Out && it.from == Some(k.warehouse) then 0 - it.quantity
    else if d == Transfer && it.to == Some(k.warehouse) then it.quantity
    else if d == Transfer && it.from == Some(k.warehouse) then 0 - it.quantity
    else 0
  }

  function DeltaAt(d: Direction, k: StockKey): Item -> int {
    (it: Item) => Delta(d, it, k)
  }

  function MovementDelta(k: StockKey): Movement -> int {
    (m: Movement) => Sum(DeltaAt(m.direction, k), m.items)
  }

  /** getStockOnHand: `ledger` holds the confirmed movements. */
  function OnHand(ledger: seq<Movement>, k: StockKey): int {
    Sum(MovementDelta(k), ledger)
  }

  ghost predicate NonNegative(ledger: seq<Movement>) {
    forall k: StockKey :: OnHand(ledger, k) >= 0
  }

  /** Items as validateMovementItems accepts them for a direction. */
  predicate ValidItem(d: Direction, it: Item) {
    match d
    case In => it.to.Some?
    case Out => it.from.Some?
    case Transfer => it.from.Some? && it.to.Some? && it.from != it.to
  }

  predicate ValidMovement(m: Movement) {
    forall it | it in m.items :: ValidItem(m.direction, it)
  }

  // ------------------------------------------------------------------
  // The stock_summary view: one leg per warehouse column, then UNION ALL
  // ------------------------------------------------------------------

  function ToLeg(d: Direction, it: Item, k: StockKey): int {
    if it.variant == k.variant && it.batch == k.batch && it.to == Some(k.warehouse) && d != Out
    then it.quantity else 0
  }

  function FromLeg(d: Direction, it: Item, k: StockKey): int {
    if it.variant == k.variant && it.batch == k.batch && it.from == Some(k.warehouse) && d != In
    then 0 - it.quantity else 0
  }

  function ToLegAt(d: Direction, k: StockKey): Item -> int { (it: Item) => ToLeg(d, it, k) }

  function FromLegAt(d: Direction, k: StockKey): Item -> int { (it: Item) => FromLeg(d, it, k) }

  function ToLegs(k: StockKey): Movement -> int { (m: Movement) => Sum(ToLegAt(m.direction, k), m.items) }

  function FromLegs(k: StockKey): Movement -> int { (m: Movement) => Sum(FromLegAt(m.direction, k), m.items) }

  function SummaryQuantity(ledger: seq<Movement>, k: StockKey): int {
    Sum(ToLegs(k), ledger) + Sum(FromLegs(k), ledger)
  }

  /** One row counts the same in the query and in the view, except a transfer
      from a warehouse to itself. */
  lemma RowAgreesIff(d: Direction, it: Item, k: StockKey)
    requires it.variant == k.variant && it.batch == k.batch
    ensures Delta(d, it, k) == ToLeg(d, it, k) + FromLeg(d, it, k)
            <==> !(d == Transfer && it.from == it.to == Some(k.warehouse))
  {
  }

  /** The lock-time query and the materialized view give the same quantity for
      every key of a ledger of valid movements. */
  lemma SummaryAgrees(ledger: seq<Movement>, k: StockKey)
    requires forall m | m in ledger :: ValidMovement(m)
    ensures SummaryQuantity(ledger, k) == OnHand(ledger, k)
  {
    forall m | m in ledger
      ensures MovementDelta(k)(m) == ToLegs(k)(m) + FromLegs(k)(m)
    {
      SumPlus(ToLegAt(m.direction, k), FromLegAt(m.direction, k), DeltaAt(m.direction, k), m.items);
    }
    SumPlus(ToLegs(k), FromLegs(k), MovementDelta(k), ledger);
  }

  // ------------------------------------------------------------------
  // Appending movements, and what a transfer conserves
  // ------------------------------------------------------------------

  lemma OnHandAppend(ledger: seq<Movement>, more: seq<Movement>, k: StockKey)
    ensures OnHand(ledger + more, k) == OnHand(ledger, k) + OnHand(more, k)
  {
    SumConcat(MovementDelta(k), ledger, more);
  }

  function OnHandIn(ledger: seq<Movement>, variant: Id, batch: Option<Id>): Id -> int {
    (w: Id) => OnHand(ledger, StockKey(variant, w, batch))
  }

  function DeltaOver(d: Direction, variant: Id, batch: Option<Id>): (Item, Id) -> int {
    (it: Item, w: Id) => Delta(d, it, StockKey(variant, w, batch))
  }

  lemma TransferItemNets(it: Item, variant: Id, batch: Option<Id>, warehouses: seq<Id>)
    requires ValidItem(Transfer, it)
    requires Distinct(warehouses) && it.from.value in warehouses && it.to.value in warehouses
    ensures Sum(Fix(DeltaOver(Transfer, variant, batch), it), warehouses) == 0
  {
    var f := Fix(DeltaOver(Transfer, variant, batch), it);
    var i :| 0 <= i < |warehouses| && warehouses[i] == it.from.value;
    var j :| 0 <= j < |warehouses| && warehouses[j] == it.to.value;
    var g: Id -> int := (w: Id) => if it.from == Some(w) then f(w) else 0;
    var h: Id -> int := (w: Id) => if it.to == Some(w) then f(w) else 0;
    SumPlus(g, h, f, warehouses);
    SumSingle(g, warehouses, i);
    SumSingle(h, warehouses, j);
  }

  /** A confirmed transfer leaves the total over all warehouses of every
      (variant, batch) unchanged. */
  lemma TransferConserves(ledger: seq<Movement>, m: Movement, variant: Id, batch: Option<Id>, warehouses: seq<Id>)
    requires m.direction == Transfer && ValidMovement(m)
    requires Distinct(warehouses)
    requires forall it | it in m.items :: it.from.value in warehouses && it.to.value in warehouses
    ensures Sum(OnHandIn(ledger + [m], variant, batch), warehouses)
         == Sum(OnHandIn(ledger, variant, batch), warehouses)
  {
    var h := DeltaOver(Transfer, variant, batch);
    forall it | it in m.items ensures Inner(h, warehouses)(it) == 0 {
      TransferItemNets(it, variant, batch, warehouses);
    }
    SumZero(Inner(h, warehouses), m.items);
    SumExchange(h, m.items, warehouses);
    var net := Inner(Flip(h), m.items);
    forall w | w in warehouses
      ensures OnHandIn(ledger + [m], variant, batch)(w) == OnHandIn(ledger, variant, batch)(w) + net(w)
    {
      var k := StockKey(variant, w, batch);
      SumAppend(MovementDelta(k), ledger, m);
      SumEqual(DeltaAt(Transfer, k), Fix(Flip(h), w), m.items);
    }
    SumPlus(OnHandIn(ledger, variant, batch), net, OnHandIn(ledger + [m], variant, batch), warehouses);
  }
}
