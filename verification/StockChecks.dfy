/** What the writers' checks mean on the stock itself, stated from the items of a
    movement, the requested lines or the counted rows: which of them pass, and that
    a writer which nobody disturbs then commits. */
module StockChecks {
  import opened Common
  import opened Sums
  import opened Rounding
  import opened StockLedger
  import opened StockLock
  import opened StockWriters
  import opened StockProtocol

  // ------------------------------------------------------------------
  // Movements and deliveries
  // ------------------------------------------------------------------

  /** What an item takes from the warehouse it comes from. */
  function LeavingAt(k: StockKey): Item -> int {
    (it: Item) =>
      if it.variant == k.variant && it.batch == k.batch && it.from == Some(k.warehouse) then it.quantity else 0
  }

  function Leaving(items: seq<Item>, k: StockKey): int { Sum(LeavingAt(k), items) }

  /** The demands of a movement are what its items take, neither more nor less. */
  lemma {:induction false} DemandsSum(items: seq<Item>, k: StockKey)
    ensures RealSum(QuantityAt(k), Demands(items)) == Leaving(items, k) as real
  {
    if items != [] {
      var m := |items| - 1;
      var it := items[m];
      DemandsSum(items[..m], k);
      if it.from.Some? {
        RealSumAppend(QuantityAt(k), Demands(items[..m]),
                      Demand(StockKey(it.variant, it.from.value, it.batch), it.quantity as real));
      }
    }
  }

  lemma {:induction false} LeavingPositive(items: seq<Item>, k: StockKey)
    ensures Leaving(items, k) >= 0
    ensures Leaving(items, k) > 0 <==> exists it | it in items :: LeavingAt(k)(it) > 0
  {
    if items != [] {
      var m := |items| - 1;
      LeavingPositive(items[..m], k);
      assert items == items[..m] + [items[m]];
    }
  }

  lemma {:induction false} DemandedKeys(items: seq<Item>, k: StockKey)
    ensures k in KeysOf(Demands(items)) <==> exists it | it in items :: LeavingAt(k)(it) > 0
  {
    if items != [] {
      var m := |items| - 1;
      var it := items[m];
      DemandedKeys(items[..m], k);
      assert items == items[..m] + [it];
      assert (exists x | x in items :: LeavingAt(k)(x) > 0)
        <==> (exists x | x in items[..m] :: LeavingAt(k)(x) > 0) || LeavingAt(k)(it) > 0;
      if it.from.Some? {
        var d := Demand(StockKey(it.variant, it.from.value, it.batch), it.quantity as real);
        assert KeysOf(Demands(items)) == KeysOf(Demands(items[..m])) + [d.key];
      }
    }
  }

  lemma DemandedIff(items: seq<Item>, k: StockKey)
    ensures k in KeysOf(Demands(items)) <==> Leaving(items, k) > 0
    ensures Leaving(items, k) >= 0
  {
    LeavingPositive(items, k);
    DemandedKeys(items, k);
  }

  lemma CheckMeans(p: Plan, m: Movement, c: Demand)
    requires IsOutboundPlan(p, Demands(m.items), m) && c in p.checks
    ensures c.quantity == Leaving(m.items, c.key) as real && Leaving(m.items, c.key) > 0
  {
    var i :| 0 <= i < |p.checks| && p.checks[i] == c;
    assert KeysOf(p.checks)[i] == c.key;
    DemandsSum(m.items, c.key);
    DemandedIff(m.items, c.key);
  }

  lemma CheckOf(p: Plan, m: Movement, k: StockKey) returns (c: Demand)
    requires IsOutboundPlan(p, Demands(m.items), m) && Leaving(m.items, k) > 0
    ensures c in p.checks && c.key == k && c.quantity == Leaving(m.items, k) as real
  {
    DemandedIff(m.items, k);
    assert k in KeysOf(p.checks);
    var i :| 0 <= i < |p.checks| && KeysOf(p.checks)[i] == k;
    c := p.checks[i];
    CheckMeans(p, m, c);
  }

  /** A movement's plan passes exactly when every key holds what leaves it. */
  lemma OutboundPassesIff(ledger: seq<Movement>, p: Plan, m: Movement)
    requires IsOutboundPlan(p, Demands(m.items), m)
    ensures Passes(ledger, p.checks)
            <==> forall k: StockKey | Leaving(m.items, k) > 0 :: OnHand(ledger, k) >= Leaving(m.items, k)
  {
    if Passes(ledger, p.checks) {
      forall k: StockKey | Leaving(m.items, k) > 0 ensures OnHand(ledger, k) >= Leaving(m.items, k) {
        var c := CheckOf(p, m, k);
      }
    }
    if forall k: StockKey | Leaving(m.items, k) > 0 :: OnHand(ledger, k) >= Leaving(m.items, k) {
      forall c | c in p.checks ensures OnHand(ledger, c.key) as real >= c.quantity {
        CheckMeans(p, m, c);
      }
    }
  }

  lemma {:induction false} OutItemsTake(items: seq<Item>, k: StockKey)
    ensures Sum(DeltaAt(Out, k), items) == 0 - Leaving(items, k)
  {
    if items != [] {
      OutItemsTake(items[..|items| - 1], k);
    }
  }

  /** An outbound movement passes its checks exactly when it leaves no key below zero. */
  lemma OutboundPassesIffNonNegative(ledger: seq<Movement>, p: Plan, m: Movement)
    requires NonNegative(ledger) && m.direction == Out && IsOutboundPlan(p, Demands(m.items), m)
    ensures Passes(ledger, p.checks) <==> NonNegative(ledger + [m])
  {
    OutboundPassesIff(ledger, p, m);
    forall k: StockKey ensures OnHand(ledger + [m], k) == OnHand(ledger, k) - Leaving(m.items, k) {
      SumAppend(MovementDelta(k), ledger, m);
      OutItemsTake(m.items, k);
    }
    if NonNegative(ledger + [m]) {
      forall k: StockKey ensures OnHand(ledger, k) >= Leaving(m.items, k) {
        assert OnHand(ledger + [m], k) >= 0;
      }
    } else {
      var k: StockKey :| OnHand(ledger + [m], k) < 0;
      assert OnHand(ledger, k) >= 0;
    }
  }

  // ------------------------------------------------------------------
  // Consumptions and stock counts
  // ------------------------------------------------------------------

  function RequestedAt(k: StockKey): RawLine -> real {
    (l: RawLine) => if l.key == k then l.quantity else 0.0
  }

  lemma {:induction false} RawDemandsSum(lines: seq<RawLine>, k: StockKey)
    ensures RealSum(QuantityAt(k), RawDemands(lines)) == RealSum(RequestedAt(k), lines) >= 0.0
    ensures k in KeysOf(RawDemands(lines)) <==> RealSum(RequestedAt(k), lines) > 0.0
  {
    if lines != [] {
      var m := |lines| - 1;
      RawDemandsSum(lines[..m], k);
      assert RawDemands(lines)[..m] == RawDemands(lines[..m]);
      assert KeysOf(RawDemands(lines)) == KeysOf(RawDemands(lines[..m])) + [lines[m].key];
    }
  }

  lemma ConsumptionCheckMeans(p: Plan, woId: Id, lines: seq<RawLine>, c: Demand)
    requires IsConsumptionPlan(p, woId, lines) && c in p.checks
    ensures c.quantity == RealSum(RequestedAt(c.key), lines) > 0.0
  {
    var i :| 0 <= i < |p.checks| && p.checks[i] == c;
    assert KeysOf(p.checks)[i] == c.key;
    RawDemandsSum(lines, c.key);
  }

  lemma ConsumptionCheckOf(p: Plan, woId: Id, lines: seq<RawLine>, k: StockKey) returns (c: Demand)
    requires IsConsumptionPlan(p, woId, lines) && RealSum(RequestedAt(k), lines) > 0.0
    ensures c in p.checks && c.key == k && c.quantity == RealSum(RequestedAt(k), lines)
  {
    RawDemandsSum(lines, k);
    assert k in KeysOf(p.checks);
    var i :| 0 <= i < |p.checks| && KeysOf(p.checks)[i] == k;
    c := p.checks[i];
  }

  /** A consumption passes exactly when every key holds the unrounded sum requested of it. */
  lemma ConsumptionPassesIff(ledger: seq<Movement>, p: Plan, woId: Id, lines: seq<RawLine>)
    requires IsConsumptionPlan(p, woId, lines)
    ensures Passes(ledger, p.checks) <==>
            forall k: StockKey | RealSum(RequestedAt(k), lines) > 0.0 ::
              OnHand(ledger, k) as real >= RealSum(RequestedAt(k), lines)
  {
    if Passes(ledger, p.checks) {
      forall k: StockKey | RealSum(RequestedAt(k), lines) > 0.0
        ensures OnHand(ledger, k) as real >= RealSum(RequestedAt(k), lines)
      {
        var c := ConsumptionCheckOf(p, woId, lines, k);
      }
    }
    if forall k: StockKey | RealSum(RequestedAt(k), lines) > 0.0 ::
         OnHand(ledger, k) as real >= RealSum(RequestedAt(k), lines) {
      forall c | c in p.checks ensures OnHand(ledger, c.key) as real >= c.quantity {
        ConsumptionCheckMeans(p, woId, lines, c);
      }
    }
  }

  lemma {:induction false} ShortageRows(warehouse: Id, items: seq<OpnameItem>)
    ensures forall l | l in Shortage(warehouse, items) ::
              exists it | it in items :: l.key == OpnameKey(warehouse, it) && l.quantity == 0 - Difference(it)
  {
    if items != [] {
      var m := |items| - 1;
      ShortageRows(warehouse, items[..m]);
      assert items == items[..m] + [items[m]];
      assert items[m] in items;
      forall l | l in Shortage(warehouse, items)
        ensures exists it | it in items :: l.key == OpnameKey(warehouse, it) && l.quantity == 0 - Difference(it)
      {
        if l in Shortage(warehouse, items[..m]) {
          var it :| it in items[..m] && l.key == OpnameKey(warehouse, it) && l.quantity == 0 - Difference(it);
          assert it in items;
        }
      }
    }
  }

  lemma {:induction false} DifferingKeys(warehouse: Id, items: seq<OpnameItem>, k: StockKey)
    ensures k in KeysWithDifference(warehouse, items)
            <==> exists it | it in items :: OpnameKey(warehouse, it) == k && Difference(it) != 0
  {
    if items != [] {
      var m := |items| - 1;
      DifferingKeys(warehouse, items[..m], k);
      assert items == items[..m] + [items[m]];
    }
  }

  /** A stock count locks exactly the keys whose count differs, and passes exactly when
      its adjustments leave no key below zero. */
  lemma OpnamePassesIff(ledger: seq<Movement>, opnameId: Id, warehouse: Id, items: seq<OpnameItem>)
    requires NonNegative(ledger) && DistinctKeys(items)
    ensures var p := OpnamePlan(opnameId, warehouse, items);
            && (forall k :: k in p.order
                  <==> exists it | it in items ::
                         OpnameKey(warehouse, it) == k && it.actual.Some? && it.actual.value != it.system)
            && (Passes(ledger, p.checks) <==> NonNegative(ledger + p.movements))
  {
    var p := OpnamePlan(opnameId, warehouse, items);
    forall k ensures k in p.order
      <==> exists it | it in items :: OpnameKey(warehouse, it) == k && it.actual.Some? && it.actual.value != it.system
    {
      DifferingKeys(warehouse, items, k);
    }
    if Passes(ledger, p.checks) {
      OpnameIsSafe(opnameId, warehouse, items);
      assert Above(ledger, 0);
      PassingKeepsAbove(ledger, p, 0);
    }
    if NonNegative(ledger + p.movements) {
      ShortageRows(warehouse, items);
      forall c | c in p.checks ensures OnHand(ledger, c.key) as real >= c.quantity {
        var l :| l in Shortage(warehouse, items) && c == Demand(l.key, l.quantity as real);
        var it :| it in items && l.key == OpnameKey(warehouse, it) && l.quantity == 0 - Difference(it);
        OpnameReaches(ledger, opnameId, warehouse, items, c.key);
        assert OnHand(ledger + p.movements, c.key) >= 0;
      }
    }
  }

  // ------------------------------------------------------------------
  // A writer on its own
  // ------------------------------------------------------------------

  lemma {:induction false} SomeRequirements(demands: seq<Demand>) returns (reqs: seq<Demand>)
    ensures Aggregates(reqs, demands)
  {
    if demands == [] {
      reqs := [];
    } else {
      var m := |demands| - 1;
      var d := demands[m];
      assert demands == demands[..m] + [d];
      var front := SomeRequirements(demands[..m]);
      if d.key in KeysOf(front) {
        var p :| 0 <= p < |front| && KeysOf(front)[p] == d.key;
        IncreaseRequirement(front, demands[..m], d, p);
        reqs := front[p := front[p].(quantity := front[p].quantity + d.quantity)];
      } else {
        assert d.key !in KeysOf(front);
        NewRequirement(front, demands[..m], d);
        reqs := front + [d];
      }
    }
  }

  /** The one movement that a request of stored quantities wants to insert. */
  ghost predicate Moves(r: Request, m: Movement) {
    match r
    case ConfirmDelivery(doId, lines) => m == DeliveryMovement(doId, lines)
    case ConfirmMovement(movement) => m == movement && m.direction == Out
    case _ => false
  }

  /** A step of this transaction, for this request. */
  ghost predicate StepOf(step: Step, t: TxId, r: Request) {
    match step
    case Begin(u, q, _) => u == t && q == r
    case Inbound(_) => false
    case _ => step.tx == t
  }

  /** So far every step was one of this request, and the last state is `s`. */
  ghost predicate SoloRun(states: seq<State>, steps: seq<Step>, t: TxId, r: Request, ledger: seq<Movement>, s: State) {
    && Run(states, steps) && (forall step | step in steps :: StepOf(step, t, r))
    && states[0].ledger == ledger && states[|steps|] == s
  }

  /** The locks after the first `n` acquisitions of a transaction that is alone. */
  function Taken(order: seq<StockKey>, n: nat, t: TxId): map<StockKey, TxId>
    requires n <= |order|
  {
    map k | k in order[..n] :: t
  }

  lemma TakenNext(order: seq<StockKey>, n: nat, t: TxId)
    requires StrictlyOrdered(order) && n < |order|
    ensures order[n] !in Taken(order, n, t)
    ensures Taken(order, n + 1, t) == Taken(order, n, t)[order[n] := t]
  {
    assert order[..n + 1] == order[..n] + [order[n]];
    if order[n] in order[..n] {
      var i :| 0 <= i < n && order[i] == order[n];
      assert KeyBefore(order[i], order[n]);
      BeforeIrreflexive(KeyString(order[n]));
    }
  }

  lemma Continue(states: seq<State>, steps: seq<Step>, t: TxId, r: Request, ledger: seq<Movement>, s: State,
                 step: Step, s': State)
    returns (states': seq<State>, steps': seq<Step>)
    requires SoloRun(states, steps, t, r, ledger, s) && StepOf(step, t, r) && Next(s, step, s')
    ensures SoloRun(states', steps', t, r, ledger, s')
  {
    states', steps' := states + [s'], steps + [step];
    forall i | 0 <= i < |steps'| ensures Next(states'[i], steps'[i], states'[i + 1]) {
      assert i < |steps| ==> Next(states[i], steps[i], states[i + 1]);
    }
  }

  /** The transaction alone with its locks, in some phase. */
  function Solo(ledger: seq<Movement>, t: TxId, p: Plan, held: nat, phase: Phase): State
    requires held <= |p.order|
  {
    State(ledger, Taken(p.order, held, t), map[t := Tx(p, phase)])
  }

  lemma AcquireAlone(ledger: seq<Movement>, t: TxId, p: Plan, n: nat)
    requires StrictlyOrdered(p.order) && n < |p.order|
    ensures Next(Solo(ledger, t, p, n, Locking(n)), Acquire(t), Solo(ledger, t, p, n + 1, Locking(n + 1)))
  {
    TakenNext(p.order, n, t);
  }

  lemma CheckAlone(ledger: seq<Movement>, t: TxId, p: Plan, n: nat)
    requires n < |p.checks| && Passes(ledger, p.checks)
    ensures var held := |p.order|;
            Next(Solo(ledger, t, p, held, Checking(n)), Check(t), Solo(ledger, t, p, held, Checking(n + 1)))
  {
    assert p.checks[n] in p.checks;
  }

  lemma CommitAlone(ledger: seq<Movement>, t: TxId, p: Plan)
    requires DistinctSources(ledger + p.movements)
    ensures Next(Solo(ledger, t, p, |p.order|, Checking(|p.checks|)), Commit(t),
                 State(ledger + p.movements, map[], map[]))
  {
    var s := Solo(ledger, t, p, |p.order|, Checking(|p.checks|));
    assert Release(s.locks, t) == map[];
    assert s.txs - {t} == map[];
  }

  lemma BeginAlone(ledger: seq<Movement>, t: TxId, r: Request, p: Plan)
    returns (states: seq<State>, steps: seq<Step>)
    requires Init(State(ledger, map[], map[])) && PlanFor(r, p)
    ensures SoloRun(states, steps, t, r, ledger, Solo(ledger, t, p, 0, Locking(0)))
  {
    assert Taken(p.order, 0, t) == map[];
    var s := State(ledger, map[], map[]);
    states, steps := Continue([s], [], t, r, ledger, s, Begin(t, r, p), Solo(ledger, t, p, 0, Locking(0)));
  }

  lemma {:induction false} LocksRun(states: seq<State>, steps: seq<Step>, t: TxId, r: Request, ledger: seq<Movement>,
                                    p: Plan, n: nat)
    returns (states': seq<State>, steps': seq<Step>)
    requires n <= |p.order| && StrictlyOrdered(p.order)
    requires SoloRun(states, steps, t, r, ledger, Solo(ledger, t, p, 0, Locking(0)))
    ensures SoloRun(states', steps', t, r, ledger, Solo(ledger, t, p, n, Locking(n)))
    decreases n
  {
    states', steps' := states, steps;
    if n > 0 {
      states', steps' := LocksRun(states, steps, t, r, ledger, p, n - 1);
      AcquireAlone(ledger, t, p, n - 1);
      states', steps' := Continue(states', steps', t, r, ledger, Solo(ledger, t, p, n - 1, Locking(n - 1)), Acquire(t),
                                  Solo(ledger, t, p, n, Locking(n)));
    }
  }

  lemma {:induction false} ChecksRun(states: seq<State>, steps: seq<Step>, t: TxId, r: Request, ledger: seq<Movement>,
                                     p: Plan, n: nat)
    returns (states': seq<State>, steps': seq<Step>)
    requires n <= |p.checks| && Passes(ledger, p.checks)
    requires SoloRun(states, steps, t, r, ledger, Solo(ledger, t, p, |p.order|, Checking(0)))
    ensures SoloRun(states', steps', t, r, ledger, Solo(ledger, t, p, |p.order|, Checking(n)))
    decreases n
  {
    states', steps' := states, steps;
    if n > 0 {
      states', steps' := ChecksRun(states, steps, t, r, ledger, p, n - 1);
      CheckAlone(ledger, t, p, n - 1);
      states', steps' := Continue(states', steps', t, r, ledger, Solo(ledger, t, p, |p.order|, Checking(n - 1)),
                                  Check(t), Solo(ledger, t, p, |p.order|, Checking(n)));
    }
  }

  lemma StartAlone(states: seq<State>, steps: seq<Step>, t: TxId, r: Request, ledger: seq<Movement>, p: Plan)
    returns (states': seq<State>, steps': seq<Step>)
    requires SoloRun(states, steps, t, r, ledger, Solo(ledger, t, p, |p.order|, Locking(|p.order|)))
    ensures SoloRun(states', steps', t, r, ledger, Solo(ledger, t, p, |p.order|, Checking(0)))
  {
    states', steps' := Continue(states, steps, t, r, ledger, Solo(ledger, t, p, |p.order|, Locking(|p.order|)),
                                StartChecks(t), Solo(ledger, t, p, |p.order|, Checking(0)));
  }

  lemma CommitRun(states: seq<State>, steps: seq<Step>, t: TxId, r: Request, ledger: seq<Movement>, p: Plan)
    returns (states': seq<State>, steps': seq<Step>)
    requires SoloRun(states, steps, t, r, ledger, Solo(ledger, t, p, |p.order|, Checking(|p.checks|)))
    requires DistinctSources(ledger + p.movements)
    ensures SoloRun(states', steps', t, r, ledger, State(ledger + p.movements, map[], map[]))
  {
    CommitAlone(ledger, t, p);
    states', steps' := Continue(states, steps, t, r, ledger, Solo(ledger, t, p, |p.order|, Checking(|p.checks|)),
                                Commit(t), State(ledger + p.movements, map[], map[]));
  }

  lemma PlanIsOrdered(r: Request, p: Plan)
    requires PlanFor(r, p)
    ensures StrictlyOrdered(p.order)
  {
    WriterPlansAreSafe(r, p);
  }

  /** A writer whose checks pass and whose documents are new commits if left alone. */
  lemma UndisturbedCommits(ledger: seq<Movement>, t: TxId, r: Request, p: Plan)
    returns (states: seq<State>, steps: seq<Step>)
    requires NonNegative(ledger) && DistinctSources(ledger + p.movements) && PlanFor(r, p)
    requires Passes(ledger, p.checks)
    ensures SoloRun(states, steps, t, r, ledger, State(ledger + p.movements, map[], map[]))
  {
    PlanIsOrdered(r, p);
    SourcesOfPrefix(ledger, p.movements);
    states, steps := BeginAlone(ledger, t, r, p);
    states, steps := LocksRun(states, steps, t, r, ledger, p, |p.order|);
    states, steps := StartAlone(states, steps, t, r, ledger, p);
    states, steps := ChecksRun(states, steps, t, r, ledger, p, |p.checks|);
    states, steps := CommitRun(states, steps, t, r, ledger, p);
  }

  lemma SourcesOfPrefix(ledger: seq<Movement>, more: seq<Movement>)
    requires DistinctSources(ledger + more)
    ensures DistinctSources(ledger)
  {
    forall i, j | 0 <= i < j < |ledger| && ledger[i].source.Some? ensures ledger[i].source != ledger[j].source {
      assert (ledger + more)[i] == ledger[i] && (ledger + more)[j] == ledger[j];
    }
  }

  lemma SomePlan(r: Request, m: Movement) returns (p: Plan)
    requires Moves(r, m)
    ensures PlanFor(r, p) && p.movements == [m] && IsOutboundPlan(p, Demands(m.items), m)
  {
    var reqs := SomeRequirements(Demands(m.items));
    p := Plan(LockOrder(KeysOf(reqs)), reqs, [m]);
  }

  /** There is a run, of this request alone, that appends its movement to the ledger. */
  ghost predicate Succeeds(ledger: seq<Movement>, t: TxId, r: Request, m: Movement) {
    exists states: seq<State>, steps: seq<Step>, s: State ::
      SoloRun(states, steps, t, r, ledger, s) && s.ledger == ledger + [m]
  }

  /** A delivery or an outbound movement goes through exactly when it leaves no key
      below zero and its document has not moved stock before. */
  lemma OutboundSucceedsIff(ledger: seq<Movement>, t: TxId, r: Request, m: Movement)
    requires NonNegative(ledger) && DistinctSources(ledger) && Moves(r, m) && m.source.Some?
    ensures Succeeds(ledger, t, r, m) <==> NonNegative(ledger + [m]) && !Carries(ledger, m.source.value)
  {
    MovementCommitsIff(ledger, m);
    if NonNegative(ledger + [m]) && !Carries(ledger, m.source.value) {
      var p := SomePlan(r, m);
      OutboundPassesIffNonNegative(ledger, p, m);
      var states, steps := UndisturbedCommits(ledger, t, r, p);
    }
    if Succeeds(ledger, t, r, m) {
      var states: seq<State>, steps: seq<Step>, s: State :|
        SoloRun(states, steps, t, r, ledger, s) && s.ledger == ledger + [m];
      StockNeverNegative(states, steps);
      RunKeepsInv(states, steps);
      assert Inv(states[|steps|]);
    }
  }

  /** Every transaction in flight serves this request, and the ledger is still the first
      one or the request's checks have passed on that. */
  ghost predicate SoloOk(s: State, r: Request, ledger: seq<Movement>) {
    && (forall u | u in s.txs :: PlanFor(r, s.txs[u].plan))
    && (s.ledger == ledger || PassedOn(r, ledger))
  }

  ghost predicate PassedOn(r: Request, ledger: seq<Movement>) {
    exists p :: PlanFor(r, p) && Passes(ledger, p.checks)
  }

  lemma PlansStay(s: State, step: Step, s': State, t: TxId, r: Request)
    requires Next(s, step, s') && StepOf(step, t, r) && forall u | u in s.txs :: PlanFor(r, s.txs[u].plan)
    ensures forall u | u in s'.txs :: PlanFor(r, s'.txs[u].plan)
  {
    forall u | u in s'.txs ensures PlanFor(r, s'.txs[u].plan) {
      assert (u in s.txs && s'.txs[u].plan == s.txs[u].plan) || (step.Begin? && s'.txs[u].plan == step.plan);
    }
  }

  lemma SoloStep(s: State, step: Step, s': State, t: TxId, r: Request, ledger: seq<Movement>)
    requires Inv(s) && SoloOk(s, r, ledger) && Next(s, step, s') && StepOf(step, t, r)
    ensures SoloOk(s', r, ledger)
  {
    PlansStay(s, step, s', t, r);
    if step.Commit? {
      CommitIsCovered(s, t, s');
      assert PlanFor(r, s.txs[t].plan);
    } else {
      assert s'.ledger == s.ledger;
    }
  }

  /** A transaction that is alone changes the ledger only after its checks have passed
      on the ledger it began with. */
  lemma {:induction false} SoloChecks(states: seq<State>, steps: seq<Step>, t: TxId, r: Request,
                                      ledger: seq<Movement>)
    requires Run(states, steps) && (forall step | step in steps :: StepOf(step, t, r)) && states[0].ledger == ledger
    ensures SoloOk(states[|steps|], r, ledger)
    decreases steps
  {
    if steps != [] {
      var n := |steps| - 1;
      assert Run(states[..n + 1], steps[..n]);
      SoloChecks(states[..n + 1], steps[..n], t, r, ledger);
      RunKeepsInv(states, steps);
      assert Inv(states[n]) && steps[n] in steps;
      SoloStep(states[n], steps[n], states[n + 1], t, r, ledger);
    }
  }

  lemma CommitIsCovered(s: State, t: TxId, s': State)
    requires Inv(s) && Next(s, Commit(t), s')
    ensures Passes(s.ledger, s.txs[t].plan.checks)
  {
    assert TxInv(s, t);
    var p := s.txs[t].plan;
    assert p.checks[..|p.checks|] == p.checks;
  }

  /** A consumption goes through exactly when every key holds the unrounded sum
      requested of it and its work order has not moved stock before. */
  lemma ConsumptionSucceedsIff(ledger: seq<Movement>, t: TxId, woId: Id, lines: seq<RawLine>)
    requires NonNegative(ledger) && DistinctSources(ledger)
    ensures Succeeds(ledger, t, ConsumeMaterials(woId, lines), ConsumptionMovement(woId, lines)) <==>
            && (forall k: StockKey | RealSum(RequestedAt(k), lines) > 0.0 ::
                  OnHand(ledger, k) as real >= RealSum(RequestedAt(k), lines))
            && !Carries(ledger, Source("work_order", woId))
  {
    var r, m := ConsumeMaterials(woId, lines), ConsumptionMovement(woId, lines);
    MovementCommitsIff(ledger, m);
    var reqs := SomeRequirements(RawDemands(lines));
    var p := Plan(LockOrder(KeysOf(reqs)), reqs, [m]);
    ConsumptionPassesIff(ledger, p, woId, lines);
    if Passes(ledger, p.checks) && !Carries(ledger, Source("work_order", woId)) {
      var states, steps := UndisturbedCommits(ledger, t, r, p);
    }
    if Succeeds(ledger, t, r, m) {
      ConsumptionWasChecked(ledger, t, woId, lines);
    }
  }

  lemma ConsumptionWasChecked(ledger: seq<Movement>, t: TxId, woId: Id, lines: seq<RawLine>)
    requires Succeeds(ledger, t, ConsumeMaterials(woId, lines), ConsumptionMovement(woId, lines))
    ensures DistinctSources(ledger + [ConsumptionMovement(woId, lines)])
    ensures forall k: StockKey | RealSum(RequestedAt(k), lines) > 0.0 ::
              OnHand(ledger, k) as real >= RealSum(RequestedAt(k), lines)
  {
    var r, m := ConsumeMaterials(woId, lines), ConsumptionMovement(woId, lines);
    var states: seq<State>, steps: seq<Step>, s: State :|
      SoloRun(states, steps, t, r, ledger, s) && s.ledger == ledger + [m];
    SoloChecks(states, steps, t, r, ledger);
    RunKeepsInv(states, steps);
    assert Inv(s) && |s.ledger| != |ledger|;
    var q :| PlanFor(r, q) && Passes(ledger, q.checks);
    ConsumptionPassesIff(ledger, q, woId, lines);
  }
}
