/** All interleavings of the stock writers: any number of transactions that lock,
    check, insert and commit, together with lock-free inbound commits. */
module StockProtocol {
  import opened Common
  import opened Sums
  import opened Rounding
  import opened StockLedger
  import opened StockLock
  import opened StockWriters

  /** What a caller may ask of an outbound writer. */
  datatype Request =
    | ConfirmDelivery(doId: Id, lines: seq<OutLine>)
    | ConsumeMaterials(woId: Id, consumed: seq<RawLine>)
    | ConfirmMovement(movement: Movement)
    | CompleteOpname(opnameId: Id, warehouse: Id, items: seq<OpnameItem>)

  /** The plan that the writer serving a request executes. */
  ghost predicate PlanFor(r: Request, p: Plan) {
    match r
    case ConfirmDelivery(doId, lines) => var m := DeliveryMovement(doId, lines); IsOutboundPlan(p, Demands(m.items), m)
    case ConsumeMaterials(woId, lines) => IsConsumptionPlan(p, woId, lines)
    case ConfirmMovement(m) => m.direction != In && IsOutboundPlan(p, Demands(m.items), m)
    case CompleteOpname(id, w, items) => DistinctKeys(items) && p == OpnamePlan(id, w, items)
  }

  /** How far below zero a request may take a key: only a consumption that rounding
      makes larger than what it checked needs any room. */
  ghost predicate NeedsAtMost(r: Request, room: nat) {
    r.ConsumeMaterials? ==> forall k: StockKey :: Overshoot(RawDemands(r.consumed), k) <= room
  }

  lemma WriterPlansAreSafe(r: Request, p: Plan)
    requires PlanFor(r, p)
    ensures Guarded(p)
    ensures forall room: nat :: NeedsAtMost(r, room) ==> Within(p, room)
  {
    match r
    case ConfirmDelivery(doId, lines) => OutboundIsSafe(p, DeliveryMovement(doId, lines));
    case ConsumeMaterials(woId, lines) => ConsumptionIsGuarded(p, woId, lines);
    case ConfirmMovement(m) => OutboundIsSafe(p, m);
    case CompleteOpname(id, w, items) => OpnameIsSafe(id, w, items);
  }

  datatype Phase = Locking(held: nat) | Checking(done: nat)

  datatype Tx = Tx(plan: Plan, phase: Phase)

  /** `ledger` is the committed state, which READ COMMITTED lets every statement see. */
  datatype State = State(ledger: seq<Movement>, locks: map<StockKey, TxId>, txs: map<TxId, Tx>)

  datatype Step =
    | Begin(tx: TxId, request: Request, plan: Plan)
    | Acquire(tx: TxId)
    | StartChecks(tx: TxId)
    | Check(tx: TxId)
    | Commit(tx: TxId)
    | Abort(tx: TxId)
    | Inbound(movement: Movement)

  ghost predicate Init(s: State) {
    NonNegative(s.ledger) && DistinctSources(s.ledger) && s.locks == map[] && s.txs == map[]
  }

  function Release(locks: map<StockKey, TxId>, t: TxId): map<StockKey, TxId> {
    map k | k in locks && locks[k] != t :: locks[k]
  }

  function SetPhase(s: State, t: TxId, ph: Phase): State
    requires t in s.txs
  {
    s.(txs := s.txs[t := s.txs[t].(phase := ph)])
  }

  /** Ends a transaction: its row disappears and its advisory locks are released. */
  function End(s: State, t: TxId): State {
    s.(locks := Release(s.locks, t), txs := s.txs - {t})
  }

  ghost predicate Next(s: State, step: Step, s': State) {
    match step
    case Begin(t, r, p) =>
      t !in s.txs && PlanFor(r, p) && s' == s.(txs := s.txs[t := Tx(p, Locking(0))])
    case Acquire(t) =>
      && t in s.txs && s.txs[t].phase.Locking? && s.txs[t].phase.held < |s.txs[t].plan.order|
      && var k := s.txs[t].plan.order[s.txs[t].phase.held];
         k !in s.locks
         && s' == SetPhase(s, t, Locking(s.txs[t].phase.held + 1)).(locks := s.locks[k := t])
    case StartChecks(t) =>
      && t in s.txs && s.txs[t].phase == Locking(|s.txs[t].plan.order|)
      && s' == SetPhase(s, t, Checking(0))
    case Check(t) =>
      && t in s.txs && s.txs[t].phase.Checking? && s.txs[t].phase.done < |s.txs[t].plan.checks|
      && var c := s.txs[t].plan.checks[s.txs[t].phase.done];
         s' == if OnHand(s.ledger, c.key) as real < c.quantity then End(s, t)
               else SetPhase(s, t, Checking(s.txs[t].phase.done + 1))
    case Commit(t) =>
      && t in s.txs && s.txs[t].phase == Checking(|s.txs[t].plan.checks|)
      && DistinctSources(s.ledger + s.txs[t].plan.movements)
      && s' == End(s, t).(ledger := s.ledger + s.txs[t].plan.movements)
    case Abort(t) =>
      t in s.txs && s' == End(s, t)
    case Inbound(m) =>
      m.direction == In && DistinctSources(s.ledger + [m]) && s' == s.(ledger := s.ledger + [m])
  }

  // ------------------------------------------------------------------
  // Invariant
  // ------------------------------------------------------------------

  function Held(x: Tx): nat {
    match x.phase
    case Locking(h) => h
    case Checking(_) => |x.plan.order|
  }

  ghost predicate TxInv(s: State, t: TxId)
    requires t in s.txs
  {
    var x := s.txs[t];
    && Guarded(x.plan)
    && Held(x) <= |x.plan.order|
    && (forall i | 0 <= i < Held(x) :: x.plan.order[i] in s.locks && s.locks[x.plan.order[i]] == t)
    && (x.phase.Checking? ==>
          && x.phase.done <= |x.plan.checks|
          && forall c | c in x.plan.checks[..x.phase.done] :: OnHand(s.ledger, c.key) as real >= c.quantity)
  }

  /** `k` is among the keys that the transaction has taken so far. */
  ghost predicate HasTaken(x: Tx, k: StockKey) {
    exists i :: 0 <= i < Held(x) && i < |x.plan.order| && x.plan.order[i] == k
  }

  ghost predicate LockInv(s: State) {
    forall k | k in s.locks :: s.locks[k] in s.txs && HasTaken(s.txs[s.locks[k]], k)
  }

  /** What holds whatever is requested. */
  ghost predicate Inv(s: State) {
    && DistinctSources(s.ledger)
    && LockInv(s)
    && forall t | t in s.txs :: TxInv(s, t)
  }

  /** A commit cannot lower a key that another transaction has locked. */
  lemma OthersKeysKept(s: State, t: TxId, k: StockKey)
    requires Inv(s)
    requires t in s.txs && s.txs[t].phase.Checking?
    requires k in s.locks && s.locks[k] != t
    ensures OnHand(s.txs[t].plan.movements, k) >= 0
  {
    var p := s.txs[t].plan;
    forall c | c in p.checks ensures c.key in s.locks && s.locks[c.key] == t {
      var i :| 0 <= i < |p.order| && p.order[i] == c.key;
    }
  }

  lemma EndKeepsInv(s: State, t: TxId, ledger: seq<Movement>)
    requires Inv(s) && t in s.txs
    requires DistinctSources(ledger)
    requires forall k | k in s.locks && s.locks[k] != t :: OnHand(ledger, k) >= OnHand(s.ledger, k)
    ensures Inv(End(s, t).(ledger := ledger))
  {
    var s' := End(s, t).(ledger := ledger);
    forall u | u in s'.txs ensures TxInv(s', u) {
      var x := s.txs[u];
      assert TxInv(s, u);
      if x.phase.Checking? {
        forall c | c in x.plan.checks[..x.phase.done] ensures OnHand(ledger, c.key) as real >= c.quantity {
          assert c in x.plan.checks;
          var i :| 0 <= i < |x.plan.order| && x.plan.order[i] == c.key;
        }
      }
    }
  }

  lemma CommitKeepsInv(s: State, t: TxId)
    requires Inv(s)
    requires t in s.txs && s.txs[t].phase == Checking(|s.txs[t].plan.checks|)
    requires DistinctSources(s.ledger + s.txs[t].plan.movements)
    ensures Inv(End(s, t).(ledger := s.ledger + s.txs[t].plan.movements))
  {
    var ledger := s.ledger + s.txs[t].plan.movements;
    forall k | k in s.locks && s.locks[k] != t ensures OnHand(ledger, k) >= OnHand(s.ledger, k) {
      OnHandAppend(s.ledger, s.txs[t].plan.movements, k);
      OthersKeysKept(s, t, k);
    }
    EndKeepsInv(s, t, ledger);
  }

  lemma InboundAdds(ledger: seq<Movement>, m: Movement)
    requires m.direction == In
    ensures forall k: StockKey :: OnHand(ledger + [m], k) >= OnHand(ledger, k)
  {
    forall k: StockKey ensures OnHand(ledger + [m], k) >= OnHand(ledger, k) {
      SumAppend(MovementDelta(k), ledger, m);
      SumNonNegative(DeltaAt(In, k), m.items);
    }
  }

  lemma InboundKeepsInv(s: State, m: Movement)
    requires Inv(s) && m.direction == In && DistinctSources(s.ledger + [m])
    ensures Inv(s.(ledger := s.ledger + [m]))
  {
    var s' := s.(ledger := s.ledger + [m]);
    InboundAdds(s.ledger, m);
    forall t | t in s'.txs ensures TxInv(s', t) {
      assert TxInv(s, t);
    }
  }

  lemma AcquireKeepsLocks(s: State, t: TxId, s': State)
    requires LockInv(s) && Next(s, Acquire(t), s')
    ensures LockInv(s')
  {
    var h := s.txs[t].phase.held;
    assert s'.txs[t].plan.order[h] == s.txs[t].plan.order[h];
    forall j | j in s.locks ensures s.locks[j] in s'.txs && HasTaken(s'.txs[s.locks[j]], j) {
      var u := s.locks[j];
      var i :| 0 <= i < Held(s.txs[u]) && i < |s.txs[u].plan.order| && s.txs[u].plan.order[i] == j;
      assert s'.txs[u].plan.order[i] == j && i < Held(s'.txs[u]);
    }
  }

  lemma AcquireKeepsTx(s: State, t: TxId, s': State, u: TxId)
    requires Next(s, Acquire(t), s') && u in s.txs && TxInv(s, u)
    ensures u in s'.txs && TxInv(s', u)
  {
  }

  lemma AcquireKeepsInv(s: State, t: TxId, s': State)
    requires Inv(s) && Next(s, Acquire(t), s')
    ensures Inv(s')
  {
    AcquireKeepsLocks(s, t, s');
    assert s'.txs.Keys == s.txs.Keys && s'.ledger == s.ledger;
    forall u | u in s.txs ensures u in s'.txs && TxInv(s', u) {
      AcquireKeepsTx(s, t, s', u);
    }
  }

  /** Moving on inside the checking phase touches no lock. */
  lemma AdvanceKeepsInv(s: State, t: TxId, done: nat)
    requires Inv(s) && t in s.txs && Held(s.txs[t]) == |s.txs[t].plan.order|
    requires done <= |s.txs[t].plan.checks|
    requires forall c | c in s.txs[t].plan.checks[..done] :: OnHand(s.ledger, c.key) as real >= c.quantity
    ensures Inv(SetPhase(s, t, Checking(done)))
  {
    var s' := SetPhase(s, t, Checking(done));
    assert TxInv(s, t);
    forall u | u in s'.txs ensures TxInv(s', u) {
      assert TxInv(s, u);
    }
    assert forall u | u in s.txs :: Held(s'.txs[u]) == Held(s.txs[u]) && s'.txs[u].plan == s.txs[u].plan;
  }

  lemma PassedChecks(s: State, t: TxId, done: nat)
    requires t in s.txs && TxInv(s, t) && s.txs[t].phase == Checking(done) && done < |s.txs[t].plan.checks|
    requires OnHand(s.ledger, s.txs[t].plan.checks[done].key) as real >= s.txs[t].plan.checks[done].quantity
    ensures forall c | c in s.txs[t].plan.checks[..done + 1] :: OnHand(s.ledger, c.key) as real >= c.quantity
  {
    var checks := s.txs[t].plan.checks;
    assert checks[..done + 1] == checks[..done] + [checks[done]];
  }

  lemma RefusedKeepsInv(s: State, t: TxId)
    requires Inv(s) && t in s.txs
    ensures Inv(End(s, t))
  {
    EndKeepsInv(s, t, s.ledger);
    assert End(s, t) == End(s, t).(ledger := s.ledger);
  }

  lemma PassedKeepsInv(s: State, t: TxId, d: nat)
    requires Inv(s) && t in s.txs && s.txs[t].phase == Checking(d) && d < |s.txs[t].plan.checks|
    requires OnHand(s.ledger, s.txs[t].plan.checks[d].key) as real >= s.txs[t].plan.checks[d].quantity
    ensures Inv(SetPhase(s, t, Checking(d + 1)))
  {
    assert TxInv(s, t);
    PassedChecks(s, t, d);
    AdvanceKeepsInv(s, t, d + 1);
  }

  lemma CheckKeepsInv(s: State, t: TxId, s': State)
    requires Inv(s) && Next(s, Check(t), s')
    ensures Inv(s')
  {
    var checks, d := s.txs[t].plan.checks, s.txs[t].phase.done;
    if (OnHand(s.ledger, checks[d].key) as real) < checks[d].quantity {
      RefusedKeepsInv(s, t);
    } else {
      PassedKeepsInv(s, t, d);
    }
  }

  lemma StepKeepsInv(s: State, step: Step, s': State)
    requires Inv(s) && Next(s, step, s')
    ensures Inv(s')
  {
    match step
    case Begin(t, r, p) =>
      WriterPlansAreSafe(r, p);
      forall u | u in s'.txs && u != t ensures TxInv(s', u) {
        assert TxInv(s, u);
      }
      assert forall k | k in s.locks :: s.locks[k] != t;
    case Acquire(t) => AcquireKeepsInv(s, t, s');
    case StartChecks(t) => AdvanceKeepsInv(s, t, 0);
    case Check(t) => CheckKeepsInv(s, t, s');
    case Commit(t) => CommitKeepsInv(s, t);
    case Abort(t) => EndKeepsInv(s, t, s.ledger);
    case Inbound(m) => InboundKeepsInv(s, m);
  }

  // ------------------------------------------------------------------
  // Every run
  // ------------------------------------------------------------------

  ghost predicate Run(states: seq<State>, steps: seq<Step>) {
    && |states| == |steps| + 1
    && Init(states[0])
    && forall i | 0 <= i < |steps| :: Next(states[i], steps[i], states[i + 1])
  }

  lemma {:induction false} RunKeepsInv(states: seq<State>, steps: seq<Step>)
    requires Run(states, steps)
    ensures forall i | 0 <= i < |states| :: Inv(states[i])
  {
    if steps != [] {
      var n := |steps| - 1;
      RunKeepsInv(states[..n + 1], steps[..n]);
      assert states[..n + 1][n] == states[n] && Inv(states[n]);
      StepKeepsInv(states[n], steps[n], states[n + 1]);
      forall i | 0 <= i < |states| ensures Inv(states[i]) {
        assert i <= n ==> states[i] == states[..n + 1][i];
      }
    }
  }

  // ------------------------------------------------------------------
  // How low stock can go
  // ------------------------------------------------------------------

  ghost predicate Roomy(s: State, room: nat) {
    Above(s.ledger, room) && forall t | t in s.txs :: Within(s.txs[t].plan, room)
  }

  ghost predicate StepNeedsAtMost(step: Step, room: nat) {
    step.Begin? ==> NeedsAtMost(step.request, room)
  }

  lemma CommitKeepsAbove(s: State, t: TxId, room: nat)
    requires Inv(s) && Roomy(s, room)
    requires t in s.txs && s.txs[t].phase == Checking(|s.txs[t].plan.checks|)
    ensures Above(s.ledger + s.txs[t].plan.movements, room)
  {
    var p := s.txs[t].plan;
    assert TxInv(s, t);
    assert p.checks[..|p.checks|] == p.checks;
    PassingKeepsAbove(s.ledger, p, room);
  }

  lemma StepKeepsRoom(s: State, step: Step, s': State, room: nat)
    requires Inv(s) && Roomy(s, room) && Next(s, step, s') && StepNeedsAtMost(step, room)
    ensures Roomy(s', room)
  {
    match step
    case Begin(t, r, p) => WriterPlansAreSafe(r, p);
    case Commit(t) => CommitKeepsAbove(s, t, room);
    case Inbound(m) => InboundAdds(s.ledger, m);
    case _ =>
  }

  /** Over every interleaving, stock goes no further below zero than the largest
      excess, of any one consumption, of its rounded lines over their rounded sum. */
  lemma {:induction false} StockStaysAbove(states: seq<State>, steps: seq<Step>, room: nat)
    requires Run(states, steps) && forall step | step in steps :: StepNeedsAtMost(step, room)
    ensures Inv(states[|steps|]) && Roomy(states[|steps|], room)
    decreases steps
  {
    if steps != [] {
      var n := |steps| - 1;
      assert Run(states[..n + 1], steps[..n]);
      StockStaysAbove(states[..n + 1], steps[..n], room);
      assert steps[n] in steps;
      StepKeepsRoom(states[n], steps[n], states[n + 1], room);
      StepKeepsInv(states[n], steps[n], states[n + 1]);
    }
  }

  /** Main result: in every committed state of every interleaving, no key of any
      (variant, warehouse, batch) is below zero, provided that every consumption fits. */
  lemma StockNeverNegative(states: seq<State>, steps: seq<Step>)
    requires Run(states, steps)
    requires forall step | step in steps && step.Begin? && step.request.ConsumeMaterials? :: Fits(step.request.consumed)
    ensures NonNegative(states[|steps|].ledger)
  {
    forall step | step in steps ensures StepNeedsAtMost(step, 0) {
      if step.Begin? && step.request.ConsumeMaterials? {
        assert Fits(step.request.consumed);
      }
    }
    StockStaysAbove(states, steps, 0);
  }

  /** Whatever is requested, half a unit of 0.0001 for each line of the longest
      consumption is the limit. */
  lemma StockNearlyNonNegative(states: seq<State>, steps: seq<Step>, longest: nat)
    requires Run(states, steps)
    requires forall step | step in steps && step.Begin? && step.request.ConsumeMaterials? ::
                |step.request.consumed| <= longest
    ensures Above(states[|steps|].ledger, longest / 2)
  {
    forall step | step in steps ensures StepNeedsAtMost(step, longest / 2) {
      if step.Begin? && step.request.ConsumeMaterials? {
        forall k: StockKey ensures Overshoot(RawDemands(step.request.consumed), k) <= longest / 2 {
          OvershootBound(RawDemands(step.request.consumed), k);
        }
      }
    }
    StockStaysAbove(states, steps, longest / 2);
  }

  // ------------------------------------------------------------------
  // Two lines of 1.00005 where 2.0001 is on hand
  // ------------------------------------------------------------------

  function TwoHalves(k: StockKey): seq<RawLine> { [RawLine(k, 10000.5), RawLine(k, 10000.5)] }

  function HalvesPlan(woId: Id, k: StockKey): Plan {
    Plan([k], [Demand(k, 20001.0)], [ConsumptionMovement(woId, TwoHalves(k))])
  }

  lemma HalvesTotals(k: StockKey)
    ensures RealSum(QuantityAt(k), RawDemands(TwoHalves(k))) == 20001.0
    ensures StoredSum(QuantityAt(k), RawDemands(TwoHalves(k))) == 20002
  {
    var half := Demand(k, 10000.5);
    assert RawDemands(TwoHalves(k)) == [half] + [half];
    RealSumOne(QuantityAt(k), [half], half);
    RealSumAppend(QuantityAt(k), [half], half);
    SumOne(RoundedBy(QuantityAt(k)), [half], half);
    SumAppend(RoundedBy(QuantityAt(k)), [half], half);
  }

  lemma HalvesPlanned(woId: Id, k: StockKey)
    ensures IsConsumptionPlan(HalvesPlan(woId, k), woId, TwoHalves(k))
  {
    var p, demands := HalvesPlan(woId, k), RawDemands(TwoHalves(k));
    HalvesTotals(k);
    assert KeysOf(p.checks) == [k];
    assert forall j: StockKey :: j in KeysOf(demands) <==> j == k by {
      assert KeysOf(demands) == [k, k];
    }
    assert forall j: StockKey :: j in LockOrder([k]) <==> j == k;
    assert StrictlyOrdered([k]);
    OrderIsCanonical(LockOrder([k]), [k]);
  }

  lemma HalvesStocked(woId: Id, k: StockKey)
    ensures NonNegative(JustEnough([Demand(k, 20001.0)])) && OnHand(JustEnough([Demand(k, 20001.0)]), k) == 20001
    ensures OnHand(JustEnough([Demand(k, 20001.0)]) + [ConsumptionMovement(woId, TwoHalves(k))], k) == -1
  {
    var checks := [Demand(k, 20001.0)];
    assert KeysOf(checks) == [k];
    JustEnoughIsEnough(checks);
    assert checks[0] in checks;
    NearestWhole(20001);
    HalvesTotals(k);
    ConsumptionNet(woId, TwoHalves(k), k);
    OnHandAppend(JustEnough(checks), [ConsumptionMovement(woId, TwoHalves(k))], k);
  }

  lemma Extend(states: seq<State>, steps: seq<Step>, step: Step, s: State)
    returns (states': seq<State>, steps': seq<Step>)
    requires Run(states, steps) && Next(states[|steps|], step, s)
    ensures Run(states', steps') && |steps'| == |steps| + 1 && states'[|steps'|] == s
  {
    states', steps' := states + [s], steps + [step];
  }

  /** The consumption under way on a ledger that holds exactly enough. */
  function Underway(woId: Id, k: StockKey, t: TxId, phase: Phase): State {
    var p := HalvesPlan(woId, k);
    State(JustEnough(p.checks), if phase == Locking(0) then map[] else map[k := t], map[t := Tx(p, phase)])
  }

  lemma HalvesBegin(woId: Id, k: StockKey, t: TxId)
    ensures Next(State(JustEnough(HalvesPlan(woId, k).checks), map[], map[]),
                 Begin(t, ConsumeMaterials(woId, TwoHalves(k)), HalvesPlan(woId, k)), Underway(woId, k, t, Locking(0)))
  {
    HalvesPlanned(woId, k);
  }

  lemma HalvesCheck(woId: Id, k: StockKey, t: TxId)
    ensures Next(Underway(woId, k, t, Locking(0)), Acquire(t), Underway(woId, k, t, Locking(1)))
    ensures Next(Underway(woId, k, t, Locking(1)), StartChecks(t), Underway(woId, k, t, Checking(0)))
    ensures Next(Underway(woId, k, t, Checking(0)), Check(t), Underway(woId, k, t, Checking(1)))
  {
    HalvesStocked(woId, k);
  }

  lemma HalvesCommit(woId: Id, k: StockKey, t: TxId)
    ensures var p := HalvesPlan(woId, k);
            Next(Underway(woId, k, t, Checking(1)), Commit(t), State(JustEnough(p.checks) + p.movements, map[], map[]))
  {
    var s := Underway(woId, k, t, Checking(1));
    assert End(s, t) == State(s.ledger, map[], map[]);
  }

  /** Within reach: the check passes at exactly 2.0001, the two rows take 1.0001 each,
      and one unit is missing. */
  lemma ConsumptionGoesBelowZero(woId: Id, k: StockKey, t: TxId) returns (states: seq<State>, steps: seq<Step>)
    ensures Run(states, steps) && OnHand(states[|steps|].ledger, k) == -1
  {
    var p := HalvesPlan(woId, k);
    HalvesStocked(woId, k);
    HalvesBegin(woId, k, t);
    HalvesCheck(woId, k, t);
    HalvesCommit(woId, k, t);
    states, steps := [State(JustEnough(p.checks), map[], map[])], [];
    states, steps := Extend(states, steps, Begin(t, ConsumeMaterials(woId, TwoHalves(k)), p),
        Underway(woId, k, t, Locking(0)));
    states, steps := Extend(states, steps, Acquire(t), Underway(woId, k, t, Locking(1)));
    states, steps := Extend(states, steps, StartChecks(t), Underway(woId, k, t, Checking(0)));
    states, steps := Extend(states, steps, Check(t), Underway(woId, k, t, Checking(1)));
    states, steps := Extend(states, steps, Commit(t), State(JustEnough(p.checks) + p.movements, map[], map[]));
  }

  /** A transaction that has passed all its checks and moves stock once for its
      document may commit exactly when no movement of that document is committed. */
  lemma CommitEnabledIff(s: State, t: TxId, m: Movement)
    requires Inv(s) && t in s.txs && s.txs[t].phase == Checking(|s.txs[t].plan.checks|)
    requires s.txs[t].plan.movements == [m] && m.source.Some?
    ensures (exists s' :: Next(s, Commit(t), s')) <==> !Carries(s.ledger, m.source.value)
  {
    MovementCommitsIff(s.ledger, m);
    if !Carries(s.ledger, m.source.value) {
      assert Next(s, Commit(t), End(s, t).(ledger := s.ledger + [m]));
    }
  }

  lemma InboundEnabledIff(s: State, m: Movement)
    requires Inv(s) && m.direction == In && m.source.Some?
    ensures (exists s' :: Next(s, Inbound(m), s')) <==> !Carries(s.ledger, m.source.value)
  {
    MovementCommitsIff(s.ledger, m);
    if !Carries(s.ledger, m.source.value) {
      assert Next(s, Inbound(m), s.(ledger := s.ledger + [m]));
    }
  }

  /** A document that has moved stock once never does so again, outbound or inbound.
      Consumption and production result are both movements of their work order, so a
      work order gets one of them, once, whichever commits first. */
  lemma DocumentMovesStockOnce(states: seq<State>, steps: seq<Step>, i: nat, source: Source)
    requires Run(states, steps) && i < |steps| && Carries(states[i].ledger, source)
    ensures forall m: Movement | m.source == Some(source) :: steps[i] != Inbound(m)
    ensures forall t | t in states[i].txs && Carries(states[i].txs[t].plan.movements, source) :: steps[i] != Commit(t)
  {
    RunKeepsInv(states, steps);
    var ledger := states[i].ledger;
    assert Next(states[i], steps[i], states[i + 1]);
    var a :| 0 <= a < |ledger| && ledger[a].source == Some(source);
    forall m: Movement | m.source == Some(source) ensures steps[i] != Inbound(m) {
      InboundClash(ledger, m, source);
    }
    forall t | t in states[i].txs && Carries(states[i].txs[t].plan.movements, source) ensures steps[i] != Commit(t) {
      var more := states[i].txs[t].plan.movements;
      var b :| 0 <= b < |more| && more[b].source == Some(source);
      assert (ledger + more)[a].source == (ledger + more)[|ledger| + b].source;
    }
  }

  lemma InboundClash(ledger: seq<Movement>, m: Movement, source: Source)
    requires Carries(ledger, source) && m.source == Some(source)
    ensures !DistinctSources(ledger + [m])
  {
    var a :| 0 <= a < |ledger| && ledger[a].source == Some(source);
    assert (ledger + [m])[a].source == (ledger + [m])[|ledger|].source;
  }

  // ------------------------------------------------------------------
  // Waiting for locks
  // ------------------------------------------------------------------

  predicate Waits(s: State, t: TxId) {
    && t in s.txs && s.txs[t].phase.Locking? && s.txs[t].phase.held < |s.txs[t].plan.order|
    && s.txs[t].plan.order[s.txs[t].phase.held] in s.locks
  }

  function NextKey(s: State, t: TxId): StockKey
    requires Waits(s, t)
  {
    s.txs[t].plan.order[s.txs[t].phase.held]
  }

  function Blocker(s: State, t: TxId): TxId
    requires Waits(s, t)
  {
    s.locks[NextKey(s, t)]
  }

  /** A waiter's blocker, if it waits too, waits for a later key. */
  lemma BlockerWaitsLater(s: State, t: TxId)
    requires Inv(s) && Waits(s, t) && Waits(s, Blocker(s, t))
    ensures KeyBefore(NextKey(s, t), NextKey(s, Blocker(s, t)))
  {
    var k, u := NextKey(s, t), Blocker(s, t);
    assert TxInv(s, u);
    var i :| 0 <= i < Held(s.txs[u]) && s.txs[u].plan.order[i] == k;
  }

  ghost predicate WaitChain(s: State, chain: seq<TxId>) {
    && (forall t | t in chain :: Waits(s, t))
    && forall i | 0 <= i < |chain| - 1 :: Waits(s, chain[i]) && Blocker(s, chain[i]) == chain[i + 1]
  }

  lemma {:induction false} ChainAscends(s: State, chain: seq<TxId>)
    requires Inv(s) && WaitChain(s, chain) && |chain| >= 2
    ensures Waits(s, chain[0]) && Waits(s, chain[|chain| - 1])
    ensures KeyBefore(NextKey(s, chain[0]), NextKey(s, chain[|chain| - 1]))
  {
    var n := |chain| - 1;
    assert chain[0] in chain && chain[n - 1] in chain && chain[n] in chain;
    BlockerWaitsLater(s, chain[n - 1]);
    if n > 1 {
      assert forall t | t in chain[..n] :: t in chain;
      ChainAscends(s, chain[..n]);
      BeforeTransitive(KeyString(NextKey(s, chain[0])), KeyString(NextKey(s, chain[n - 1])),
          KeyString(NextKey(s, chain[n])));
    }
  }

  /** No wait cycle of any length is reachable. */
  lemma NoWaitCycle(states: seq<State>, steps: seq<Step>, i: nat, chain: seq<TxId>)
    requires Run(states, steps) && i < |states|
    requires WaitChain(states[i], chain) && |chain| >= 2
    ensures chain[0] != chain[|chain| - 1]
  {
    RunKeepsInv(states, steps);
    ChainAscends(states[i], chain);
    KeyOrder(NextKey(states[i], chain[0]), NextKey(states[i], chain[0]));
  }

  lemma {:induction false} LatestWaiter(s: State, ts: set<TxId>) returns (top: TxId)
    requires ts != {} && forall t | t in ts :: Waits(s, t)
    ensures top in ts
    ensures forall t | t in ts :: !KeyBefore(NextKey(s, top), NextKey(s, t))
    decreases ts
  {
    var x :| x in ts;
    KeyOrder(NextKey(s, x), NextKey(s, x));
    if ts == {x} {
      top := x;
    } else {
      var rest := ts - {x};
      var y := LatestWaiter(s, rest);
      top := if KeyBefore(NextKey(s, y), NextKey(s, x)) then x else y;
      forall t | t in ts ensures !KeyBefore(NextKey(s, top), NextKey(s, t)) {
        if top == x && t != x && KeyBefore(NextKey(s, x), NextKey(s, t)) {
          BeforeTransitive(KeyString(NextKey(s, y)), KeyString(NextKey(s, x)), KeyString(NextKey(s, t)));
        }
      }
    }
  }

  /** Whenever transactions are active, one of them is not blocked on a stock lock. */
  lemma SomeTransactionProceeds(states: seq<State>, steps: seq<Step>, i: nat)
    requires Run(states, steps) && i < |states| && states[i].txs != map[]
    ensures exists t | t in states[i].txs :: !Waits(states[i], t)
  {
    var s := states[i];
    RunKeepsInv(states, steps);
    if forall t | t in s.txs :: Waits(s, t) {
      var u :| u in s.txs;
      var top := LatestWaiter(s, s.txs.Keys);
      var b := Blocker(s, top);
      BlockerWaitsLater(s, top);
      assert false;
    }
  }
}
