/** The four outbound stock writers: which locks each one takes, which quantities
    it checks, and which movements it then inserts. */
module StockWriters {
  import opened Common
  import opened Sums
  import opened Rounding
  import opened StockLedger
  import opened StockLock

  /** A quantity demanded of, or compared with, the stock of one key, unrounded. */
  datatype Demand = Demand(key: StockKey, quantity: real)

  datatype Plan = Plan(order: seq<StockKey>, checks: seq<Demand>, movements: seq<Movement>)

  function QuantityAt(k: StockKey): Demand -> real {
    (d: Demand) => if d.key == k then d.quantity else 0.0
  }

  function KeysOf(ds: seq<Demand>): (keys: seq<StockKey>)
    ensures |keys| == |ds| && forall i | 0 <= i < |ds| :: keys[i] == ds[i].key
  {
    seq(|ds|, i requires 0 <= i < |ds| => ds[i].key)
  }

  // ------------------------------------------------------------------
  // Demand of a set of movement items, aggregated per key
  // ------------------------------------------------------------------

  /** One demand for every item that leaves a warehouse. */
  function Demands(items: seq<Item>): seq<Demand> {
    if items == [] then [] else
      var it := items[|items| - 1];
      var rest := Demands(items[..|items| - 1]);
      if it.from.None? then rest
      else rest + [Demand(StockKey(it.variant, it.from.value, it.batch), it.quantity as real)]
  }

  /** `reqs` holds each demanded key once, with the total demanded of it. */
  ghost predicate Aggregates(reqs: seq<Demand>, demands: seq<Demand>) {
    && Distinct(KeysOf(reqs))
    && (forall r | r in reqs :: r.quantity == RealSum(QuantityAt(r.key), demands))
    && (forall k :: k in KeysOf(reqs) <==> k in KeysOf(demands))
  }

  /** The map from key strings to rows agrees with the rows. */
  predicate Indexes(position: map<string, nat>, reqs: seq<Demand>) {
    && (forall s | s in position :: position[s] < |reqs| && KeyString(reqs[position[s]].key) == s)
    && (forall j | 0 <= j < |reqs| :: KeyString(reqs[j].key) in position && position[KeyString(reqs[j].key)] == j)
  }

  /** The requirement map of the writers: an insertion-ordered map from the key
      string to a record whose quantity is increased in place. */
  method AggregateDemand(demands: seq<Demand>) returns (reqs: seq<Demand>)
    ensures Aggregates(reqs, demands)
  {
    reqs := [];
    var position: map<string, nat> := map[];
    for i := 0 to |demands|
      invariant Collected(position, reqs, demands[..i])
    {
      var d := demands[i];
      var s := KeyString(d.key);
      assert demands[..i + 1] == demands[..i] + [d];
      if s in position {
        var p := position[s];
        IncreaseCollected(position, reqs, demands[..i], d, p);
        reqs := reqs[p := reqs[p].(quantity := reqs[p].quantity + d.quantity)];
      } else {
        NewCollected(position, reqs, demands[..i], d);
        position := position[s := |reqs|];
        reqs := reqs + [d];
      }
    }
    assert demands[..|demands|] == demands;
  }

  ghost predicate Collected(position: map<string, nat>, reqs: seq<Demand>, demands: seq<Demand>) {
    Indexes(position, reqs) && Aggregates(reqs, demands)
  }

  lemma IncreaseCollected(position: map<string, nat>, reqs: seq<Demand>, demands: seq<Demand>, d: Demand, p: nat)
    requires Collected(position, reqs, demands)
    requires KeyString(d.key) in position && p == position[KeyString(d.key)]
    ensures p < |reqs|
    ensures Collected(position, reqs[p := reqs[p].(quantity := reqs[p].quantity + d.quantity)], demands + [d])
  {
    KeyStringInjective(reqs[p].key, d.key);
    IncreaseRequirement(reqs, demands, d, p);
  }

  lemma NewCollected(position: map<string, nat>, reqs: seq<Demand>, demands: seq<Demand>, d: Demand)
    requires Collected(position, reqs, demands) && KeyString(d.key) !in position
    ensures Collected(position[KeyString(d.key) := |reqs|], reqs + [d], demands + [d])
  {
    NewRequirement(reqs, demands, d);
  }

  lemma IncreaseRequirement(reqs: seq<Demand>, demands: seq<Demand>, d: Demand, p: nat)
    requires Aggregates(reqs, demands)
    requires p < |reqs| && reqs[p].key == d.key
    ensures Aggregates(reqs[p := reqs[p].(quantity := reqs[p].quantity + d.quantity)], demands + [d])
  {
    var next := reqs[p := reqs[p].(quantity := reqs[p].quantity + d.quantity)];
    assert KeysOf(next) == KeysOf(reqs);
    assert KeysOf(demands + [d]) == KeysOf(demands) + [d.key];
    assert KeysOf(reqs)[p] == d.key;
    forall r | r in next ensures r.quantity == RealSum(QuantityAt(r.key), demands + [d]) {
      var j :| 0 <= j < |next| && next[j] == r;
      RealSumAppend(QuantityAt(r.key), demands, d);
      assert reqs[j] in reqs && KeysOf(reqs)[j] == r.key;
      assert r.key == d.key ==> j == p;
    }
  }

  lemma NewRequirement(reqs: seq<Demand>, demands: seq<Demand>, d: Demand)
    requires Aggregates(reqs, demands)
    requires d.key !in KeysOf(reqs)
    ensures Aggregates(reqs + [d], demands + [d])
  {
    assert KeysOf(reqs + [d]) == KeysOf(reqs) + [d.key];
    assert KeysOf(demands + [d]) == KeysOf(demands) + [d.key];
    DemandAbsent(demands, d.key);
    forall r | r in reqs + [d] ensures r.quantity == RealSum(QuantityAt(r.key), demands + [d]) {
      RealSumAppend(QuantityAt(r.key), demands, d);
      if r in reqs {
        var j :| 0 <= j < |reqs| && reqs[j] == r;
        assert KeysOf(reqs)[j] == r.key;
      }
    }
  }

  lemma DemandAbsent(demands: seq<Demand>, k: StockKey)
    requires k !in KeysOf(demands)
    ensures RealSum(QuantityAt(k), demands) == 0.0 && StoredSum(QuantityAt(k), demands) == 0
  {
    forall d | d in demands ensures QuantityAt(k)(d) == 0.0 {
      var j :| 0 <= j < |demands| && demands[j] == d;
      assert KeysOf(demands)[j] == d.key;
    }
    RealSumZero(QuantityAt(k), demands);
    NearestWhole(0);
    SumZero(RoundedBy(QuantityAt(k)), demands);
  }

  // ------------------------------------------------------------------
  // Delivery confirm, movement confirm, material consumption
  // ------------------------------------------------------------------

  /** Check what is demanded, then insert the movement. */
  ghost predicate IsOutboundPlan(p: Plan, demands: seq<Demand>, m: Movement) {
    && Aggregates(p.checks, demands)
    && p.order == LockOrder(KeysOf(p.checks))
    && p.movements == [m]
  }

  method PlanOutbound(demands: seq<Demand>, m: Movement) returns (p: Plan)
    ensures IsOutboundPlan(p, demands, m)
  {
    var reqs := AggregateDemand(demands);
    p := Plan(LockOrder(KeysOf(reqs)), reqs, [m]);
  }

  /** A stored quantity and the stock it comes from. */
  datatype OutLine = OutLine(key: StockKey, quantity: Quantity)

  function OutItem(l: OutLine): Item {
    Item(l.key.variant, l.key.batch, Some(l.key.warehouse), None, l.quantity)
  }

  function OutItems(lines: seq<OutLine>): (items: seq<Item>)
    ensures |items| == |lines| && forall i | 0 <= i < |lines| :: items[i] == OutItem(lines[i])
  {
    seq(|lines|, i requires 0 <= i < |lines| => OutItem(lines[i]))
  }

  function DeliveryMovement(doId: Id, lines: seq<OutLine>): Movement {
    Movement(Out, Some(Source("delivery_order", doId)), OutItems(lines))
  }

  /** A quantity as a consumption requests it: at least 0.0001, with any decimals. */
  type Consumed = q: real | q >= 1.0 witness 1.0

  datatype RawLine = RawLine(key: StockKey, quantity: Consumed)

  /** What a consumption checks: the unrounded quantities. */
  function RawDemands(lines: seq<RawLine>): (ds: seq<Demand>)
    ensures |ds| == |lines| && forall i | 0 <= i < |lines| :: ds[i] == Demand(lines[i].key, lines[i].quantity)
  {
    seq(|lines|, i requires 0 <= i < |lines| => Demand(lines[i].key, lines[i].quantity))
  }

  /** What it inserts: every line rounded by the column. */
  function StoreLines(lines: seq<RawLine>): (r: seq<OutLine>)
    ensures |r| == |lines| && forall i | 0 <= i < |lines| :: r[i] == OutLine(lines[i].key, Nearest(lines[i].quantity))
  {
    seq(|lines|, i requires 0 <= i < |lines| => OutLine(lines[i].key, Nearest(lines[i].quantity)))
  }

  function ConsumptionMovement(woId: Id, lines: seq<RawLine>): Movement {
    Movement(Out, Some(Source("work_order", woId)), OutItems(StoreLines(lines)))
  }

  // ------------------------------------------------------------------
  // Stock opname
  // ------------------------------------------------------------------

  /** One snapshot row; `actual` is null until it is counted. */
  datatype OpnameItem = OpnameItem(id: Id, variant: Id, batch: Option<Id>, system: int, actual: Option<int>)

  /** A submitted count, unrounded. */
  datatype Count = Count(itemId: Id, actual: RawAmount)

  /** The generated column `difference`; a null difference fails the filter. */
  function Difference(it: OpnameItem): int {
    if it.actual.Some? then it.actual.value - it.system else 0
  }

  predicate DistinctIds(items: seq<OpnameItem>) {
    forall i, j | 0 <= i < j < |items| :: items[i].id != items[j].id
  }

  /** The last count submitted for an item, as stored, if there is one. */
  function LastCount(counts: seq<Count>, id: Id): Option<int> {
    if counts == [] then None
    else if counts[|counts| - 1].itemId == id then Some(Nearest(counts[|counts| - 1].actual))
    else LastCount(counts[..|counts| - 1], id)
  }

  function Counted(it: OpnameItem, counts: seq<Count>): OpnameItem {
    var c := LastCount(counts, it.id);
    if c.Some? then it.(actual := c) else it
  }

  /** The count check and the update loop of `complete`. */
  method ApplyCounts(items: seq<OpnameItem>, counts: seq<Count>) returns (r: Option<seq<OpnameItem>>)
    ensures r.Some? <==> |counts| == |items|
    ensures r.Some? ==> |r.value| == |items|
                        && forall j | 0 <= j < |items| :: r.value[j] == Counted(items[j], counts)
  {
    if |counts| != |items| {
      return None;
    }
    var rows := items;
    for i := 0 to |counts|
      invariant |rows| == |items|
      invariant forall j | 0 <= j < |items| :: rows[j] == Counted(items[j], counts[..i])
    {
      var c := counts[i];
      assert counts[..i + 1][..i] == counts[..i];
      rows := seq(|rows|, j requires 0 <= j < |rows| =>
        if rows[j].id == c.itemId then rows[j].(actual := Some(Nearest(c.actual))) else rows[j]);
    }
    assert counts[..|counts|] == counts;
    return Some(rows);
  }

  function CountIds(counts: seq<Count>): set<Id> { set c | c in counts :: c.itemId }

  function ItemIds(items: seq<OpnameItem>): set<Id> { set it | it in items :: it.id }

  predicate DistinctCounts(counts: seq<Count>) {
    forall i, j | 0 <= i < j < |counts| :: counts[i].itemId != counts[j].itemId
  }

  lemma {:induction false} LastCountIff(counts: seq<Count>, id: Id)
    ensures LastCount(counts, id).Some? <==> id in CountIds(counts)
  {
    if counts != [] {
      var m := |counts| - 1;
      assert counts == counts[..m] + [counts[m]];
      LastCountIff(counts[..m], id);
    }
  }

  lemma CountIdsNext(front: seq<Count>, last: Count)
    ensures CountIds(front + [last]) == CountIds(front) + {last.itemId}
    ensures DistinctCounts(front + [last]) <==> DistinctCounts(front) && last.itemId !in CountIds(front)
  {
    var counts := front + [last];
    if last.itemId in CountIds(front) {
      var i :| 0 <= i < |front| && front[i].itemId == last.itemId;
      assert counts[i].itemId == counts[|front|].itemId;
    } else {
      assert forall i | 0 <= i < |front| :: front[i] in front && counts[i] == front[i];
    }
  }

  lemma {:induction false} CountIdsSize(counts: seq<Count>)
    ensures |CountIds(counts)| <= |counts|
    ensures |CountIds(counts)| == |counts| <==> DistinctCounts(counts)
  {
    if counts != [] {
      var front, last := counts[..|counts| - 1], counts[|counts| - 1];
      assert counts == front + [last];
      CountIdsSize(front);
      CountIdsNext(front, last);
    }
  }

  lemma {:induction false} ItemIdsSize(items: seq<OpnameItem>)
    requires DistinctIds(items)
    ensures |ItemIds(items)| == |items|
  {
    if items != [] {
      var m := |items| - 1;
      assert items == items[..m] + [items[m]];
      ItemIdsSize(items[..m]);
      assert ItemIds(items) == ItemIds(items[..m]) + {items[m].id};
    }
  }

  /** The count check admits a submission that misses items; it catches them all
      exactly when the submitted ids are distinct and belong to this opname. */
  lemma AllCountedIff(items: seq<OpnameItem>, counts: seq<Count>)
    requires DistinctIds(items) && |counts| == |items|
    requires forall it | it in items :: it.actual.None?
    ensures (forall it | it in items :: Counted(it, counts).actual.Some?)
            <==> DistinctCounts(counts) && CountIds(counts) <= ItemIds(items)
  {
    ItemIdsSize(items);
    CountIdsSize(counts);
    forall it | it in items ensures Counted(it, counts).actual.Some? <==> it.id in CountIds(counts) {
      LastCountIff(counts, it.id);
    }
    if forall it | it in items :: Counted(it, counts).actual.Some? {
      assert ItemIds(items) <= CountIds(counts);
      SubsetSize(ItemIds(items), CountIds(counts));
    }
    if DistinctCounts(counts) && CountIds(counts) <= ItemIds(items) {
      SubsetSize(CountIds(counts), ItemIds(items));
    }
  }

  lemma SubsetSize<T>(a: set<T>, b: set<T>)
    requires a <= b
    ensures |a| <= |b|
    ensures |a| == |b| ==> a == b
  {
    assert b == a + (b - a);
  }

  function OpnameKey(warehouse: Id, it: OpnameItem): StockKey {
    StockKey(it.variant, warehouse, it.batch)
  }

  /** stock_summary has one row per (variant, batch) of a warehouse, so a snapshot has too. */
  predicate DistinctKeys(items: seq<OpnameItem>) {
    forall i, j | 0 <= i < j < |items| ::
      items[i].variant != items[j].variant || items[i].batch != items[j].batch
  }

  function Surplus(warehouse: Id, items: seq<OpnameItem>): seq<Item> {
    if items == [] then [] else
      var it := items[|items| - 1];
      var rest := Surplus(warehouse, items[..|items| - 1]);
      if Difference(it) > 0 then rest + [Item(it.variant, it.batch, None, Some(warehouse), Difference(it))] else rest
  }

  function Shortage(warehouse: Id, items: seq<OpnameItem>): seq<OutLine> {
    if items == [] then [] else
      var it := items[|items| - 1];
      var rest := Shortage(warehouse, items[..|items| - 1]);
      if Difference(it) < 0 then rest + [OutLine(OpnameKey(warehouse, it), 0 - Difference(it))] else rest
  }

  function KeysWithDifference(warehouse: Id, items: seq<OpnameItem>): seq<StockKey> {
    if items == [] then [] else
      var it := items[|items| - 1];
      var rest := KeysWithDifference(warehouse, items[..|items| - 1]);
      if Difference(it) != 0 then rest + [OpnameKey(warehouse, it)] else rest
  }

  function OpnameMovements(opnameId: Id, warehouse: Id, items: seq<OpnameItem>): seq<Movement> {
    var source := Some(Source("stock_opname", opnameId));
    var surplus := Surplus(warehouse, items);
    var shortage := OutItems(Shortage(warehouse, items));
    (if surplus != [] then [Movement(In, source, surplus)] else [])
    + (if shortage != [] then [Movement(Out, source, shortage)] else [])
  }

  /** createAdjustmentMovements: every differing key is locked, each shortage is
      checked on its own, and each sign gets one movement. */
  function OpnamePlan(opnameId: Id, warehouse: Id, items: seq<OpnameItem>): Plan {
    var shortage := Shortage(warehouse, items);
    Plan(LockOrder(KeysWithDifference(warehouse, items)),
         seq(|shortage|, i requires 0 <= i < |shortage| => Demand(shortage[i].key, shortage[i].quantity as real)),
         OpnameMovements(opnameId, warehouse, items))
  }

  function DifferenceAt(warehouse: Id, k: StockKey): OpnameItem -> int {
    (it: OpnameItem) => if OpnameKey(warehouse, it) == k then Difference(it) else 0
  }

  lemma SurplusStep(warehouse: Id, items: seq<OpnameItem>, k: StockKey)
    requires items != []
    ensures var it := items[|items| - 1];
            Sum(DeltaAt(In, k), Surplus(warehouse, items))
            == Sum(DeltaAt(In, k), Surplus(warehouse, items[..|items| - 1]))
               + if Difference(it) > 0 then DifferenceAt(warehouse, k)(it) else 0
  {
    var it := items[|items| - 1];
    if Difference(it) > 0 {
      SumAppend(DeltaAt(In, k), Surplus(warehouse, items[..|items| - 1]),
                Item(it.variant, it.batch, None, Some(warehouse), Difference(it)));
    }
  }

  lemma ShortageStep(warehouse: Id, items: seq<OpnameItem>, k: StockKey)
    requires items != []
    ensures var it := items[|items| - 1];
            Sum(DeltaAt(Out, k), OutItems(Shortage(warehouse, items)))
            == Sum(DeltaAt(Out, k), OutItems(Shortage(warehouse, items[..|items| - 1])))
               + if Difference(it) < 0 then DifferenceAt(warehouse, k)(it) else 0
  {
    var it := items[|items| - 1];
    var before, after := Shortage(warehouse, items[..|items| - 1]), Shortage(warehouse, items);
    if Difference(it) < 0 {
      var line := OutLine(OpnameKey(warehouse, it), 0 - Difference(it));
      assert after == before + [line];
      OutItemsAppend(before, line, k);
    } else {
      assert after == before;
    }
  }

  lemma OutItemsAppend(before: seq<OutLine>, line: OutLine, k: StockKey)
    ensures Sum(DeltaAt(Out, k), OutItems(before + [line]))
         == Sum(DeltaAt(Out, k), OutItems(before)) - (if line.key == k then line.quantity else 0)
  {
    assert OutItems(before + [line]) == OutItems(before) + [OutItem(line)];
    SumAppend(DeltaAt(Out, k), OutItems(before), OutItem(line));
  }

  lemma {:induction false} AdjustmentsNet(warehouse: Id, items: seq<OpnameItem>, k: StockKey)
    ensures Sum(DeltaAt(In, k), Surplus(warehouse, items))
            + Sum(DeltaAt(Out, k), OutItems(Shortage(warehouse, items)))
         == Sum(DifferenceAt(warehouse, k), items)
  {
    if items != [] {
      AdjustmentsNet(warehouse, items[..|items| - 1], k);
      SurplusStep(warehouse, items, k);
      ShortageStep(warehouse, items, k);
    }
  }

  lemma OpnameNet(opnameId: Id, warehouse: Id, items: seq<OpnameItem>, k: StockKey)
    ensures OnHand(OpnameMovements(opnameId, warehouse, items), k) == Sum(DifferenceAt(warehouse, k), items)
  {
    var source := Some(Source("stock_opname", opnameId));
    var surplus := Surplus(warehouse, items);
    var shortage := OutItems(Shortage(warehouse, items));
    var ins := if surplus != [] then [Movement(In, source, surplus)] else [];
    var outs := if shortage != [] then [Movement(Out, source, shortage)] else [];
    AdjustmentsNet(warehouse, items, k);
    OnHandAppend(ins, outs, k);
    assert OnHand(ins, k) == Sum(DeltaAt(In, k), surplus) by {
      if surplus != [] {
        SumAppend(MovementDelta(k), [], ins[0]);
        assert ins == [] + [ins[0]];
      }
    }
    assert OnHand(outs, k) == Sum(DeltaAt(Out, k), shortage) by {
      if shortage != [] {
        SumAppend(MovementDelta(k), [], outs[0]);
        assert outs == [] + [outs[0]];
      }
    }
  }

  /** Completing an opname moves each counted key by exactly actual - system, to
      the counted value if nothing moved since the snapshot, and no other key. */
  lemma OpnameReaches(ledger: seq<Movement>, opnameId: Id, warehouse: Id, items: seq<OpnameItem>, k: StockKey)
    requires DistinctKeys(items)
    ensures (forall it | it in items :: OpnameKey(warehouse, it) != k) ==>
              OnHand(ledger + OpnameMovements(opnameId, warehouse, items), k) == OnHand(ledger, k)
    ensures forall it | it in items && OpnameKey(warehouse, it) == k ::
              && OnHand(ledger + OpnameMovements(opnameId, warehouse, items), k) == OnHand(ledger, k) + Difference(it)
              && (it.actual.Some? && it.system == OnHand(ledger, k) ==>
                    OnHand(ledger + OpnameMovements(opnameId, warehouse, items), k) == it.actual.value)
  {
    OpnameNet(opnameId, warehouse, items, k);
    OnHandAppend(ledger, OpnameMovements(opnameId, warehouse, items), k);
    if it :| it in items && OpnameKey(warehouse, it) == k {
      var i :| 0 <= i < |items| && items[i] == it;
      SumSingle(DifferenceAt(warehouse, k), items, i);
      assert forall x | x in items && OpnameKey(warehouse, x) == k :: x == it;
    } else {
      SumZero(DifferenceAt(warehouse, k), items);
    }
  }

  // ------------------------------------------------------------------
  // Safety of a plan: what it takes from a key is what it checked there
  // ------------------------------------------------------------------

  /** Everything checked is locked, and everything lowered is checked. */
  ghost predicate Guarded(p: Plan) {
    && StrictlyOrdered(p.order)
    && (forall c | c in p.checks :: c.key in p.order)
    && (forall k: StockKey :: OnHand(p.movements, k) < 0 ==> exists c | c in p.checks :: c.key == k)
  }

  /** After its checks, the plan lowers no key by more than `room` below zero. Stock
      is whole, so a check against a fraction is one against the next whole unit. */
  ghost predicate Within(p: Plan, room: nat) {
    forall k: StockKey | OnHand(p.movements, k) < 0 ::
      exists c | c in p.checks :: c.key == k && OnHand(p.movements, k) + Ceil(c.quantity) >= 0 - room
  }

  /** What rounding every line takes beyond what the sum of the lines was checked for. */
  function Overshoot(demands: seq<Demand>, k: StockKey): int {
    StoredSum(QuantityAt(k), demands) - Ceil(RealSum(QuantityAt(k), demands))
  }

  /** At most half a unit for each line. */
  lemma OvershootBound(demands: seq<Demand>, k: StockKey)
    ensures 2 * Overshoot(demands, k) <= |demands|
  {
    StoredSumError(QuantityAt(k), demands);
    CeilIsLeast(RealSum(QuantityAt(k), demands));
  }

  predicate WholeDemands(demands: seq<Demand>) { forall d | d in demands :: Whole(d.quantity) }

  /** Nothing at four decimals. */
  lemma WholeDemandsFit(demands: seq<Demand>, k: StockKey)
    requires WholeDemands(demands)
    ensures Overshoot(demands, k) == 0
  {
    forall d | d in demands ensures Whole(QuantityAt(k)(d)) {}
    DriftBound(QuantityAt(k), demands);
  }

  /** Nothing with one line for each key. */
  lemma SingleDemandsFit(demands: seq<Demand>, k: StockKey)
    requires Distinct(KeysOf(demands))
    ensures Overshoot(demands, k) <= 0
  {
    if i :| 0 <= i < |demands| && demands[i].key == k {
      NearestWhole(0);
      forall j | 0 <= j < |demands| && j != i ensures QuantityAt(k)(demands[j]) == 0.0 {
        assert KeysOf(demands)[j] != KeysOf(demands)[i];
      }
      RealSumSingle(QuantityAt(k), demands, i);
      SumSingle(RoundedBy(QuantityAt(k)), demands, i);
      CeilIsLeast(demands[i].quantity);
    } else {
      assert forall i | 0 <= i < |demands| :: KeysOf(demands)[i] == demands[i].key;
      DemandAbsent(demands, k);
    }
  }

  /** Bounds what a movement takes by the rounded demands it was planned for. */
  ghost predicate TakesAtMost(m: Movement, demands: seq<Demand>) {
    forall k: StockKey :: OnHand([m], k) + StoredSum(QuantityAt(k), demands) >= 0
  }

  lemma OutboundIsGuarded(p: Plan, demands: seq<Demand>, m: Movement)
    requires IsOutboundPlan(p, demands, m) && TakesAtMost(m, demands)
    ensures Guarded(p)
  {
    forall c | c in p.checks ensures c.key in p.order {
      var i :| 0 <= i < |p.checks| && p.checks[i] == c;
      assert KeysOf(p.checks)[i] == c.key;
    }
    forall k: StockKey | OnHand(p.movements, k) < 0 ensures exists c | c in p.checks :: c.key == k {
      var c := CheckFor(p, demands, m, k);
    }
  }

  /** The check that a lowered key has. */
  lemma CheckFor(p: Plan, demands: seq<Demand>, m: Movement, k: StockKey) returns (c: Demand)
    requires IsOutboundPlan(p, demands, m) && TakesAtMost(m, demands) && OnHand(p.movements, k) < 0
    ensures c in p.checks && c.key == k && c.quantity == RealSum(QuantityAt(k), demands)
  {
    if k !in KeysOf(demands) {
      DemandAbsent(demands, k);
    }
    assert k in KeysOf(p.checks);
    var i :| 0 <= i < |p.checks| && KeysOf(p.checks)[i] == k;
    c := p.checks[i];
  }

  lemma OutboundIsWithin(p: Plan, demands: seq<Demand>, m: Movement, room: nat)
    requires IsOutboundPlan(p, demands, m) && TakesAtMost(m, demands)
    requires forall k: StockKey :: Overshoot(demands, k) <= room
    ensures Within(p, room)
  {
    forall k: StockKey | OnHand(p.movements, k) < 0
      ensures exists c | c in p.checks :: c.key == k && OnHand(p.movements, k) + Ceil(c.quantity) >= 0 - room
    {
      var c := CheckFor(p, demands, m, k);
      assert Overshoot(demands, k) <= room;
    }
  }

  lemma {:induction false} DemandCoversItems(d: Direction, items: seq<Item>, k: StockKey)
    ensures Sum(DeltaAt(d, k), items) + StoredSum(QuantityAt(k), Demands(items)) >= 0
  {
    if items != [] {
      var m := |items| - 1;
      var it := items[m];
      DemandCoversItems(d, items[..m], k);
      if it.from.Some? {
        NearestWhole(it.quantity);
        NearestWhole(0);
        SumAppend(RoundedBy(QuantityAt(k)), Demands(items[..m]),
                  Demand(StockKey(it.variant, it.from.value, it.batch), it.quantity as real));
      }
    }
  }

  lemma StoredDemandsTake(m: Movement)
    ensures TakesAtMost(m, Demands(m.items))
  {
    forall k: StockKey ensures OnHand([m], k) + StoredSum(QuantityAt(k), Demands(m.items)) >= 0 {
      SumOne(MovementDelta(k), [m], m);
      DemandCoversItems(m.direction, m.items, k);
    }
  }

  lemma {:induction false} StoredDemandsWhole(items: seq<Item>)
    ensures WholeDemands(Demands(items))
  {
    if items != [] {
      StoredDemandsWhole(items[..|items| - 1]);
    }
  }

  /** The writers that check what is stored lower nothing below zero. */
  lemma OutboundIsSafe(p: Plan, m: Movement)
    requires IsOutboundPlan(p, Demands(m.items), m)
    ensures Guarded(p) && Within(p, 0)
  {
    StoredDemandsTake(m);
    StoredDemandsWhole(m.items);
    OutboundIsGuarded(p, Demands(m.items), m);
    forall k: StockKey ensures Overshoot(Demands(m.items), k) <= 0 {
      WholeDemandsFit(Demands(m.items), k);
    }
    OutboundIsWithin(p, Demands(m.items), m, 0);
  }

  // ------------------------------------------------------------------
  // Material consumption: checked as a sum, stored line by line
  // ------------------------------------------------------------------

  lemma {:induction false} ConsumptionTakes(lines: seq<RawLine>, k: StockKey)
    ensures Sum(DeltaAt(Out, k), OutItems(StoreLines(lines))) == 0 - StoredSum(QuantityAt(k), RawDemands(lines))
  {
    if lines != [] {
      var m := |lines| - 1;
      ConsumptionTakes(lines[..m], k);
      assert RawDemands(lines)[..m] == RawDemands(lines[..m]);
      assert OutItems(StoreLines(lines))[..m] == OutItems(StoreLines(lines[..m]));
      NearestWhole(0);
    }
  }

  ghost predicate IsConsumptionPlan(p: Plan, woId: Id, lines: seq<RawLine>) {
    IsOutboundPlan(p, RawDemands(lines), ConsumptionMovement(woId, lines))
  }

  lemma ConsumptionNet(woId: Id, lines: seq<RawLine>, k: StockKey)
    ensures OnHand([ConsumptionMovement(woId, lines)], k) == 0 - StoredSum(QuantityAt(k), RawDemands(lines))
  {
    SumOne(MovementDelta(k), [ConsumptionMovement(woId, lines)], ConsumptionMovement(woId, lines));
    ConsumptionTakes(lines, k);
  }

  lemma ConsumptionIsGuarded(p: Plan, woId: Id, lines: seq<RawLine>)
    requires IsConsumptionPlan(p, woId, lines)
    ensures Guarded(p)
    ensures forall room: nat :: (forall k: StockKey :: Overshoot(RawDemands(lines), k) <= room) ==> Within(p, room)
  {
    forall k: StockKey
      ensures OnHand([ConsumptionMovement(woId, lines)], k) + StoredSum(QuantityAt(k), RawDemands(lines)) >= 0
    {
      ConsumptionNet(woId, lines, k);
    }
    OutboundIsGuarded(p, RawDemands(lines), ConsumptionMovement(woId, lines));
    forall room: nat | forall k: StockKey :: Overshoot(RawDemands(lines), k) <= room ensures Within(p, room) {
      OutboundIsWithin(p, RawDemands(lines), ConsumptionMovement(woId, lines), room);
    }
  }

  /** For every key, rounding the lines one by one comes to no more than rounding
      their sum up. */
  ghost predicate Fits(lines: seq<RawLine>) {
    forall k: StockKey :: Overshoot(RawDemands(lines), k) <= 0
  }

  /** Always so with at most four decimals, or with one line for each key. */
  lemma UsuallyFits(lines: seq<RawLine>)
    requires WholeDemands(RawDemands(lines)) || Distinct(KeysOf(RawDemands(lines)))
    ensures Fits(lines)
  {
    forall k: StockKey ensures Overshoot(RawDemands(lines), k) <= 0 {
      if WholeDemands(RawDemands(lines)) {
        WholeDemandsFit(RawDemands(lines), k);
      } else {
        SingleDemandsFit(RawDemands(lines), k);
      }
    }
  }

  predicate Passes(ledger: seq<Movement>, checks: seq<Demand>) {
    forall c | c in checks :: OnHand(ledger, c.key) as real >= c.quantity
  }

  /** An inbound movement that brings every key exactly to its check. */
  function Stocking(checks: seq<Demand>): seq<Item>
    requires forall c | c in checks :: c.quantity >= 1.0
  {
    if checks == [] then [] else
      var c := checks[|checks| - 1];
      assert c in checks;
      Stocking(checks[..|checks| - 1])
          + [Item(c.key.variant, c.key.batch, None, Some(c.key.warehouse), Ceil(c.quantity))]
  }

  function JustEnough(checks: seq<Demand>): seq<Movement>
    requires forall c | c in checks :: c.quantity >= 1.0
  {
    [Movement(In, None, Stocking(checks))]
  }

  function CeilAt(k: StockKey): Demand -> int {
    (d: Demand) => if d.key == k then Ceil(d.quantity) else 0
  }

  lemma {:induction false} StockingBrings(checks: seq<Demand>, k: StockKey)
    requires forall c | c in checks :: c.quantity >= 1.0
    ensures Sum(DeltaAt(In, k), Stocking(checks)) == Sum(CeilAt(k), checks)
  {
    if checks != [] {
      var m := |checks| - 1;
      StockingBrings(checks[..m], k);
      var c := checks[m];
      assert c in checks;
      SumAppend(DeltaAt(In, k), Stocking(checks[..m]),
          Item(c.key.variant, c.key.batch, None, Some(c.key.warehouse), Ceil(c.quantity)));
    }
  }

  lemma JustEnoughIsEnough(checks: seq<Demand>)
    requires Distinct(KeysOf(checks)) && forall c | c in checks :: c.quantity >= 1.0
    ensures NonNegative(JustEnough(checks)) && Passes(JustEnough(checks), checks)
    ensures forall c | c in checks :: OnHand(JustEnough(checks), c.key) == Ceil(c.quantity)
  {
    forall k: StockKey ensures OnHand(JustEnough(checks), k) == Sum(CeilAt(k), checks) >= 0 {
      SumOne(MovementDelta(k), JustEnough(checks), JustEnough(checks)[0]);
      StockingBrings(checks, k);
      SumNonNegative(CeilAt(k), checks);
    }
    forall c | c in checks ensures OnHand(JustEnough(checks), c.key) == Ceil(c.quantity) {
      var i :| 0 <= i < |checks| && checks[i] == c;
      forall j | 0 <= j < |checks| && j != i ensures CeilAt(c.key)(checks[j]) == 0 {
        assert KeysOf(checks)[i] != KeysOf(checks)[j];
      }
      SumSingle(CeilAt(c.key), checks, i);
    }
  }

  /** A consumption leaves stock non-negative on every ledger that passes its checks
      exactly when its lines fit. */
  lemma ConsumptionIsSafeIff(p: Plan, woId: Id, lines: seq<RawLine>)
    requires IsConsumptionPlan(p, woId, lines)
    ensures (forall ledger | NonNegative(ledger) && Passes(ledger, p.checks) :: NonNegative(ledger + p.movements))
              <==> Fits(lines)
  {
    if Fits(lines) {
      ConsumptionIsGuarded(p, woId, lines);
      forall ledger | NonNegative(ledger) && Passes(ledger, p.checks) ensures NonNegative(ledger + p.movements) {
        PassingKeepsAbove(ledger, p, 0);
      }
    } else {
      var k: StockKey :| Overshoot(RawDemands(lines), k) > 0;
      MisfitGoesBelow(p, woId, lines, k);
    }
  }

  ghost predicate Above(ledger: seq<Movement>, room: nat) {
    forall k: StockKey :: OnHand(ledger, k) >= 0 - room
  }

  /** Whatever passes its checks lowers no key beyond the room it has. */
  lemma PassingKeepsAbove(ledger: seq<Movement>, p: Plan, room: nat)
    requires Above(ledger, room) && Within(p, room) && Passes(ledger, p.checks)
    ensures Above(ledger + p.movements, room)
  {
    forall k: StockKey ensures OnHand(ledger + p.movements, k) >= 0 - room {
      OnHandAppend(ledger, p.movements, k);
      if OnHand(p.movements, k) < 0 {
        var c :| c in p.checks && c.key == k && OnHand(p.movements, k) + Ceil(c.quantity) >= 0 - room;
        CeilCompares(OnHand(ledger, k), c.quantity);
      }
    }
  }

  lemma MisfitGoesBelow(p: Plan, woId: Id, lines: seq<RawLine>, k: StockKey)
    requires IsConsumptionPlan(p, woId, lines) && Overshoot(RawDemands(lines), k) > 0
    ensures forall c | c in p.checks :: c.quantity >= 1.0
    ensures var ledger := JustEnough(p.checks);
            NonNegative(ledger) && Passes(ledger, p.checks) && OnHand(ledger + p.movements, k) < 0
  {
    ChecksAreLarge(p, lines);
    JustEnoughIsEnough(p.checks);
    ConsumptionNet(woId, lines, k);
    if k !in KeysOf(RawDemands(lines)) {
      DemandAbsent(RawDemands(lines), k);
    }
    assert k in KeysOf(p.checks);
    var i :| 0 <= i < |p.checks| && KeysOf(p.checks)[i] == k;
    assert p.checks[i] in p.checks;
    OnHandAppend(JustEnough(p.checks), p.movements, k);
  }

  lemma ChecksAreLarge(p: Plan, lines: seq<RawLine>)
    requires Aggregates(p.checks, RawDemands(lines))
    ensures forall c | c in p.checks :: c.quantity >= 1.0
  {
    var demands := RawDemands(lines);
    forall c | c in p.checks ensures c.quantity >= 1.0 {
      var i :| 0 <= i < |p.checks| && p.checks[i] == c;
      assert KeysOf(p.checks)[i] in KeysOf(demands);
      var j :| 0 <= j < |demands| && KeysOf(demands)[j] == c.key;
      RealSumAtLeast(QuantityAt(c.key), demands, j);
    }
  }

  lemma {:induction false} ShortageMembers(warehouse: Id, items: seq<OpnameItem>)
    ensures forall l | l in Shortage(warehouse, items) :: l.key in KeysWithDifference(warehouse, items)
    ensures forall it | it in items && Difference(it) < 0 ::
              exists l | l in Shortage(warehouse, items) :: l.key == OpnameKey(warehouse, it)
                  && l.quantity == 0 - Difference(it)
  {
    if items != [] {
      var m := |items| - 1;
      ShortageMembers(warehouse, items[..m]);
      assert items == items[..m] + [items[m]];
      if Difference(items[m]) < 0 {
        assert OutLine(OpnameKey(warehouse, items[m]), 0 - Difference(items[m])) in Shortage(warehouse, items);
      }
    }
  }

  lemma OpnameIsSafe(opnameId: Id, warehouse: Id, items: seq<OpnameItem>)
    requires DistinctKeys(items)
    ensures Guarded(OpnamePlan(opnameId, warehouse, items)) && Within(OpnamePlan(opnameId, warehouse, items), 0)
  {
    var p := OpnamePlan(opnameId, warehouse, items);
    ShortageMembers(warehouse, items);
    forall k: StockKey | OnHand(p.movements, k) < 0
      ensures exists c | c in p.checks :: c.key == k && OnHand(p.movements, k) + Ceil(c.quantity) >= 0
    {
      var c := OpnameCheck(opnameId, warehouse, items, k);
    }
    forall k: StockKey | OnHand(p.movements, k) < 0 ensures exists c | c in p.checks :: c.key == k {
      var c := OpnameCheck(opnameId, warehouse, items, k);
    }
  }

  lemma OpnameCheck(opnameId: Id, warehouse: Id, items: seq<OpnameItem>, k: StockKey) returns (c: Demand)
    requires DistinctKeys(items) && OnHand(OpnamePlan(opnameId, warehouse, items).movements, k) < 0
    ensures c in OpnamePlan(opnameId, warehouse, items).checks && c.key == k
    ensures OnHand(OpnamePlan(opnameId, warehouse, items).movements, k) + Ceil(c.quantity) >= 0
  {
    var p := OpnamePlan(opnameId, warehouse, items);
    var shortage := Shortage(warehouse, items);
    ShortageMembers(warehouse, items);
    OpnameNet(opnameId, warehouse, items, k);
    if forall it | it in items :: OpnameKey(warehouse, it) != k {
      SumZero(DifferenceAt(warehouse, k), items);
    }
    var it :| it in items && OpnameKey(warehouse, it) == k;
    var i :| 0 <= i < |items| && items[i] == it;
    SumSingle(DifferenceAt(warehouse, k), items, i);
    var l :| l in shortage && l.key == k && l.quantity == 0 - Difference(it);
    var j :| 0 <= j < |shortage| && shortage[j] == l;
    c := p.checks[j];
    CeilIsLeast(c.quantity);
  }

  // ------------------------------------------------------------------
  // One movement per business document
  // ------------------------------------------------------------------

  predicate DistinctSources(ledger: seq<Movement>) {
    forall i, j | 0 <= i < j < |ledger| :: ledger[i].source.Some? ==> ledger[i].source != ledger[j].source
  }

  predicate Carries(ledger: seq<Movement>, s: Source) {
    exists m | m in ledger :: m.source == Some(s)
  }

  /** The unique index on (reference_type, reference_id) refuses an opname that
      found both a surplus and a shortage: it would insert two movements for one
      document. It accepts every other first completion. */
  lemma OpnameCommitsIff(ledger: seq<Movement>, opnameId: Id, warehouse: Id, items: seq<OpnameItem>)
    requires DistinctSources(ledger) && !Carries(ledger, Source("stock_opname", opnameId))
    ensures DistinctSources(ledger + OpnameMovements(opnameId, warehouse, items))
            <==> !((exists it | it in items :: Difference(it) > 0) && (exists it | it in items :: Difference(it) < 0))
  {
    SignsPresent(warehouse, items);
    var more := OpnameMovements(opnameId, warehouse, items);
    var all := ledger + more;
    if |more| == 2 {
      assert all[|ledger|] == more[0] && all[|ledger| + 1] == more[1];
    } else {
      forall i, j | 0 <= i < j < |all| && all[i].source.Some? ensures all[i].source != all[j].source {
        if j == |ledger| {
          assert all[i] in ledger;
        }
      }
    }
  }

  /** One movement of a document is accepted exactly when the document has none yet. */
  lemma MovementCommitsIff(ledger: seq<Movement>, m: Movement)
    requires DistinctSources(ledger) && m.source.Some?
    ensures DistinctSources(ledger + [m]) <==> !Carries(ledger, m.source.value)
  {
    if Carries(ledger, m.source.value) {
      var i :| 0 <= i < |ledger| && ledger[i].source == m.source;
      assert (ledger + [m])[i].source == (ledger + [m])[|ledger|].source;
    } else {
      assert forall i | 0 <= i < |ledger| :: ledger[i] in ledger;
    }
  }

  lemma {:induction false} SignsPresent(warehouse: Id, items: seq<OpnameItem>)
    ensures Surplus(warehouse, items) != [] <==> exists it | it in items :: Difference(it) > 0
    ensures Shortage(warehouse, items) != [] <==> exists it | it in items :: Difference(it) < 0
  {
    if items != [] {
      var m := |items| - 1;
      SignsPresent(warehouse, items[..m]);
      assert items == items[..m] + [items[m]];
    }
  }
}
