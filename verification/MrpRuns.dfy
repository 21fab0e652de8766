/** The MRP run protocol of one tenant: triggers, cancellations, one reconciler and
    any number of workers over the mrp_runs table and the job queue. */
module MrpRuns {
  import opened Common

  datatype Status = Pending | Running | Completed | Failed | FailedPermanent | Cancelled

  datatype MrpRun = MrpRun(status: Status, retry: nat)

  datatype JobState = Waiting | Delayed | Active | Finished

  const MAX_RETRY: nat := 3

  predicate IsActive(s: Status) { s == Pending || s == Running }

  predicate IsTerminal(s: Status) { s == Completed || s == FailedPermanent || s == Cancelled }

  predicate Retryable(r: MrpRun) { r.status == Failed && r.retry < MAX_RETRY }

  predicate SomeActive(runs: seq<MrpRun>) {
    exists i | 0 <= i < |runs| :: IsActive(runs[i].status)
  }

  /** The partial unique index idx_mrp_runs_one_active_per_tenant. */
  predicate OneActive(runs: seq<MrpRun>) {
    forall i, j | 0 <= i < j < |runs| :: !(IsActive(runs[i].status) && IsActive(runs[j].status))
  }

  // ------------------------------------------------------------------
  // Job ids
  // ------------------------------------------------------------------

  /** validateTenantCode admits lower-case letters, digits and underscores. */
  predicate IsTenantCode(t: string) {
    t != "" && forall c | c in t :: 'a' <= c <= 'z' || IsDigit(c) || c == '_'
  }

  function JobId(tenant: string, run: nat): string {
    "mrp-" + tenant + "-run-" + Decimal(run)
  }

  /** The queue is shared by all tenants; jobs of different runs never collide. */
  lemma JobIdInjective(t: string, i: nat, u: string, j: nat)
    requires IsTenantCode(t) && IsTenantCode(u)
    requires JobId(t, i) == JobId(u, j)
    ensures t == u && i == j
  {
    assert JobId(t, i)[4..] == t + ['-'] + ("run-" + Decimal(i));
    assert JobId(u, j)[4..] == u + ['-'] + ("run-" + Decimal(j));
    SplitAt('-', t, "run-" + Decimal(i), u, "run-" + Decimal(j));
    assert ("run-" + Decimal(i))[4..] == Decimal(i);
    DecimalInjective(i, j);
  }

  /** ensureQueued: a live job is kept, any other is replaced by a waiting one. */
  function EnsureQueued(queue: map<nat, JobState>, id: nat): map<nat, JobState> {
    if id in queue && queue[id] != Finished then queue else queue[id := Waiting]
  }

  // ------------------------------------------------------------------
  // Steps
  // ------------------------------------------------------------------

  /** A row as a SELECT returned it; later statements still use its retry_count. */
  datatype Snapshot = Snapshot(id: nat, retry: nat)

  /** Where the reconciler is. */
  datatype Pc =
    | Idle
    | Ensuring(ids: seq<nat>)
    | Retrying(todo: seq<Snapshot>)
    | Requeueing(id: nat, rest: seq<Snapshot>)
    | Sweeping
    | Unsticking(stuck: seq<Snapshot>)
    | RequeueingStuck(id: nat, rest: seq<Snapshot>)

  /** `triggers` holds the callers of triggerRun that have passed its first check. */
  datatype State = State(runs: seq<MrpRun>, queue: map<nat, JobState>, triggers: set<nat>, pc: Pc)

  datatype Step =
    | TriggerCheck(caller: nat)
    | TriggerInsert(caller: nat)
    | Cancel(run: nat)
    | Claim(run: nat)
    | Finish(run: nat, success: bool)
    | QueueChange(queue: map<nat, JobState>)
    | Reconcile(next: Pc)

  ghost predicate DistinctIds(todo: seq<Snapshot>) {
    forall i, j | 0 <= i < j < |todo| :: todo[i].id != todo[j].id
  }

  /** Rows selected now by a WHERE clause on the status (and possibly on times). */
  ghost predicate Selected(runs: seq<MrpRun>, todo: seq<Snapshot>, status: Status) {
    && DistinctIds(todo)
    && forall s | s in todo :: s.id < |runs| && runs[s.id] == MrpRun(status, s.retry)
  }

  function SetStatus(s: State, id: nat, r: MrpRun): State
    requires id < |s.runs|
  {
    s.(runs := s.runs[id := r])
  }

  /** One statement or one queue call of reconcileTenant. */
  ghost predicate ReconcileStep(s: State, next: Pc, s': State) {
    match s.pc
    case Idle =>
      && next.Ensuring? && (forall id | id in next.ids :: id < |s.runs| && s.runs[id].status == Pending)
      && s' == s.(pc := next)
    case Ensuring(ids) =>
      if ids != [] then
        next == Ensuring(ids[1..]) && s' == s.(pc := next, queue := EnsureQueued(s.queue, ids[0]))
      else
        && next.Retrying? && Selected(s.runs, next.todo, Failed)
        && (forall x | x in next.todo :: x.retry < MAX_RETRY)
        && (forall i | 0 <= i < |s.runs| && Retryable(s.runs[i]) :: Snapshot(i, s.runs[i].retry) in next.todo)
        && s' == s.(pc := next)
    case Retrying(todo) =>
      if todo == [] then
        next == Sweeping && s' == s.(pc := next)
      else
        var x := todo[0];
        if x.id < |s.runs| && s.runs[x.id].status == Failed then
          if SomeActive(s.runs) then
            // unique violation: the exception ends the whole pass
            next == Idle && s' == s.(pc := Idle)
          else
            next == Requeueing(x.id, todo[1..]) && s' == SetStatus(s, x.id, MrpRun(Pending, x.retry + 1)).(pc := next)
        else
          next == Retrying(todo[1..]) && s' == s.(pc := next)
    case Requeueing(id, rest) =>
      next == Retrying(rest) && s' == s.(pc := next, queue := EnsureQueued(s.queue, id))
    case Sweeping =>
      && next.Unsticking? && Selected(SweepFailed(s.runs), next.stuck, Running)
      && s' == s.(runs := SweepFailed(s.runs), pc := next)
    case Unsticking(todo) =>
      if todo == [] then
        next == Idle && s' == s.(pc := next)
      else
        var x := todo[0];
        if x.id in s.queue && s.queue[x.id] == Active then
          next == Unsticking(todo[1..]) && s' == s.(pc := next)
        else if x.id < |s.runs| && s.runs[x.id].status == Running then
          if x.retry + 1 <= MAX_RETRY then
            next == RequeueingStuck(x.id, todo[1..])
                && s' == SetStatus(s, x.id, MrpRun(Pending, x.retry + 1)).(pc := next)
          else
            next == Unsticking(todo[1..])
                && s' == SetStatus(s, x.id, s.runs[x.id].(status := FailedPermanent)).(pc := next)
        else
          next == Unsticking(todo[1..]) && s' == s.(pc := next)
    case RequeueingStuck(id, rest) =>
      next == Unsticking(rest) && s' == s.(pc := next, queue := EnsureQueued(s.queue, id))
  }

  /** The bulk update of exhausted failures. */
  function SweepFailed(runs: seq<MrpRun>): (r: seq<MrpRun>)
    ensures |r| == |runs|
    ensures forall i | 0 <= i < |runs| ::
              r[i] == if runs[i].status == Failed && runs[i].retry >= MAX_RETRY
                      then runs[i].(status := FailedPermanent) else runs[i]
  {
    seq(|runs|, i requires 0 <= i < |runs| =>
      if runs[i].status == Failed && runs[i].retry >= MAX_RETRY then runs[i].(status := FailedPermanent) else runs[i])
  }

  ghost predicate Next(s: State, step: Step, s': State) {
    match step
    case TriggerCheck(c) =>
      s' == if SomeActive(s.runs) then s else s.(triggers := s.triggers + {c})
    case TriggerInsert(c) =>
      && c in s.triggers
      && s' == if SomeActive(s.runs) then s.(triggers := s.triggers - {c})
               else s.(triggers := s.triggers - {c}, runs := s.runs + [MrpRun(Pending, 0)])
    case Cancel(id) =>
      && id < |s.runs|
      && s' == if IsActive(s.runs[id].status) then SetStatus(s, id, s.runs[id].(status := Cancelled)) else s
    case Claim(id) =>
      && id < |s.runs|
      && s' == if s.runs[id].status == Pending then SetStatus(s, id, s.runs[id].(status := Running)) else s
    case Finish(id, success) =>
      && id < |s.runs|
      && s' == if s.runs[id].status == Running
               then SetStatus(s, id, s.runs[id].(status := if success then Completed else Failed)) else s
    case QueueChange(q) =>
      s' == s.(queue := q)
    case Reconcile(next) =>
      ReconcileStep(s, next, s')
  }

  // ------------------------------------------------------------------
  // Invariant
  // ------------------------------------------------------------------

  /** Snapshots still carry the current retry_count: only the reconciler writes it. */
  ghost predicate Fresh(runs: seq<MrpRun>, todo: seq<Snapshot>) {
    DistinctIds(todo) && forall x | x in todo :: x.id < |runs| && runs[x.id].retry == x.retry
  }

  ghost predicate PcOk(s: State) {
    match s.pc
    case Retrying(todo) => Fresh(s.runs, todo) && forall x | x in todo :: x.retry < MAX_RETRY
    case Requeueing(id, rest) => Fresh(s.runs, rest) && forall x | x in rest :: x.retry < MAX_RETRY
    case Unsticking(todo) => Fresh(s.runs, todo)
    case RequeueingStuck(id, rest) => Fresh(s.runs, rest)
    case _ => true
  }

  ghost predicate Inv(s: State) {
    && OneActive(s.runs)
    && (forall r | r in s.runs :: r.retry <= MAX_RETRY)
    && PcOk(s)
  }

  /** What one step may do to one run: nothing, or lower (MAX_RETRY - retry, rank). */
  function Rank(s: Status): nat {
    match s
    case Pending => 3
    case Running => 2
    case Failed => 1
    case _ => 0
  }

  predicate Lower(r: MrpRun, r': MrpRun) {
    r'.retry > r.retry || (r'.retry == r.retry && Rank(r'.status) < Rank(r.status))
  }

  /** The transitions of the service's documentation, and the one it omits: a stuck
      run whose retries are used up fails permanently. */
  predicate Transition(from: Status, to: Status) {
    match from
    case Pending => to == Running || to == Cancelled
    case Running => to == Completed || to == Failed || to == Cancelled || to == Pending || to == FailedPermanent
    case Failed => to == Pending || to == FailedPermanent
    case _ => false
  }

  /** `r'` follows `r`: unchanged, or moved along one of these transitions. */
  predicate Follows(r: MrpRun, r': MrpRun) {
    || r' == r
    || (&& Transition(r.status, r'.status) && Lower(r, r') && r'.retry <= MAX_RETRY
        && (r'.status == Pending ==> r'.retry == r.retry + 1 && r.status != Pending)
        && (r'.status != Pending ==> r'.retry == r.retry))
  }

  ghost predicate RunsFollow(runs: seq<MrpRun>, runs': seq<MrpRun>) {
    && |runs| <= |runs'|
    && forall i | 0 <= i < |runs| :: Follows(runs[i], runs'[i])
  }

  /** Handling the head of a worklist leaves the rest fresh, even if it updates the head's row. */
  lemma TailFresh(runs: seq<MrpRun>, todo: seq<Snapshot>, r: MrpRun)
    requires Fresh(runs, todo) && todo != []
    ensures Fresh(runs, todo[1..]) && todo[0].id < |runs| && runs[todo[0].id].retry == todo[0].retry
    ensures Fresh(runs[todo[0].id := r], todo[1..])
    ensures forall x | x in todo[1..] :: x in todo
  {
    assert todo[0] in todo;
    forall x | x in todo[1..] ensures x in todo && x.id != todo[0].id {
      var i :| 0 <= i < |todo[1..]| && todo[1..][i] == x;
      assert todo[i + 1] == x;
    }
  }

  ghost predicate RunsOk(runs: seq<MrpRun>) {
    OneActive(runs) && forall r | r in runs :: r.retry <= MAX_RETRY
  }

  /** One conditional UPDATE of a row. */
  lemma UpdateRun(runs: seq<MrpRun>, id: nat, r: MrpRun)
    requires RunsOk(runs) && id < |runs|
    requires Follows(runs[id], r)
    requires IsActive(r.status) ==> IsActive(runs[id].status) || !SomeActive(runs)
    ensures RunsOk(runs[id := r]) && RunsFollow(runs, runs[id := r])
  {
    assert runs[id] in runs;
    forall x | x in runs[id := r] ensures x.retry <= MAX_RETRY {
      var i :| 0 <= i < |runs| && runs[id := r][i] == x;
      assert i != id ==> runs[i] in runs;
    }
  }

  lemma RetryingKeepsInv(s: State, next: Pc, s': State)
    requires Inv(s) && s.pc.Retrying? && ReconcileStep(s, next, s')
    ensures Inv(s') && RunsFollow(s.runs, s'.runs)
  {
    var todo := s.pc.todo;
    if todo != [] {
      var x := todo[0];
      assert x in todo;
      TailFresh(s.runs, todo, MrpRun(Pending, x.retry + 1));
      if s.runs[x.id].status == Failed && !SomeActive(s.runs) {
        UpdateRun(s.runs, x.id, MrpRun(Pending, x.retry + 1));
      }
    }
  }

  lemma UnstickingKeepsInv(s: State, next: Pc, s': State)
    requires Inv(s) && s.pc.Unsticking? && ReconcileStep(s, next, s')
    ensures Inv(s') && RunsFollow(s.runs, s'.runs)
  {
    var todo := s.pc.stuck;
    if todo != [] {
      var x := todo[0];
      var r := if x.retry + 1 <= MAX_RETRY then MrpRun(Pending, x.retry + 1) else MrpRun(FailedPermanent, x.retry);
      TailFresh(s.runs, todo, r);
      if s.runs[x.id].status == Running {
        assert s.runs[x.id] in s.runs;
        UpdateRun(s.runs, x.id, r);
      }
    }
  }

  lemma SweepKeepsOk(runs: seq<MrpRun>)
    requires RunsOk(runs)
    ensures RunsOk(SweepFailed(runs)) && RunsFollow(runs, SweepFailed(runs))
  {
    forall r | r in SweepFailed(runs) ensures r.retry <= MAX_RETRY {
      var i :| 0 <= i < |runs| && SweepFailed(runs)[i] == r;
      assert runs[i] in runs;
    }
    assert forall i | 0 <= i < |runs| :: runs[i] in runs;
  }

  lemma ReconcileKeepsInv(s: State, next: Pc, s': State)
    requires Inv(s) && ReconcileStep(s, next, s')
    ensures Inv(s') && RunsFollow(s.runs, s'.runs)
  {
    match s.pc
    case Retrying(todo) => RetryingKeepsInv(s, next, s');
    case Unsticking(todo) => UnstickingKeepsInv(s, next, s');
    case Sweeping => SweepKeepsOk(s.runs);
    case _ =>
  }

  /** A status change made by another party than the reconciler. */
  lemma StatusKeepsInv(s: State, id: nat, status: Status)
    requires Inv(s) && id < |s.runs| && Follows(s.runs[id], s.runs[id].(status := status))
    requires IsActive(status) ==> IsActive(s.runs[id].status)
    ensures var s' := SetStatus(s, id, s.runs[id].(status := status)); Inv(s') && RunsFollow(s.runs, s'.runs)
  {
    UpdateRun(s.runs, id, s.runs[id].(status := status));
  }

  lemma InsertKeepsInv(s: State, s': State)
    requires Inv(s) && !SomeActive(s.runs)
    requires s'.runs == s.runs + [MrpRun(Pending, 0)] && s'.pc == s.pc
    ensures Inv(s') && RunsFollow(s.runs, s'.runs)
  {
  }

  lemma StepKeepsInv(s: State, step: Step, s': State)
    requires Inv(s) && Next(s, step, s')
    ensures Inv(s') && RunsFollow(s.runs, s'.runs)
  {
    match step
    case Reconcile(next) => ReconcileKeepsInv(s, next, s');
    case TriggerInsert(c) =>
      if !SomeActive(s.runs) {
        InsertKeepsInv(s, s');
      }
    case Cancel(id) =>
      if IsActive(s.runs[id].status) {
        assert s.runs[id] in s.runs;
        StatusKeepsInv(s, id, Cancelled);
      }
    case Claim(id) =>
      if s.runs[id].status == Pending {
        assert s.runs[id] in s.runs;
        StatusKeepsInv(s, id, Running);
      }
    case Finish(id, success) =>
      if s.runs[id].status == Running {
        assert s.runs[id] in s.runs;
        StatusKeepsInv(s, id, if success then Completed else Failed);
      }
    case _ =>
  }

  // ------------------------------------------------------------------
  // Every run of the protocol
  // ------------------------------------------------------------------

  ghost predicate Trace(states: seq<State>, steps: seq<Step>) {
    && |states| == |steps| + 1
    && Inv(states[0])
    && forall i | 0 <= i < |steps| :: Next(states[i], steps[i], states[i + 1])
  }

  lemma TracePrefix(states: seq<State>, steps: seq<Step>)
    requires Trace(states, steps) && steps != []
    ensures Trace(states[..|steps|], steps[..|steps| - 1])
  {
  }

  /** In every reachable state at most one run is pending or running and no
      retry_count exceeds 3. */
  lemma {:induction false} OneActiveAlways(states: seq<State>, steps: seq<Step>)
    requires Trace(states, steps)
    ensures Inv(states[|steps|])
    decreases steps
  {
    if steps != [] {
      TracePrefix(states, steps);
      OneActiveAlways(states[..|steps|], steps[..|steps| - 1]);
      StepKeepsInv(states[|steps| - 1], steps[|steps| - 1], states[|steps|]);
    }
  }

  /** A completed, cancelled or permanently failed run keeps its row for ever,
      whatever jobs, workers and reconciliation passes come later. */
  lemma {:induction false} TerminalIsFinal(states: seq<State>, steps: seq<Step>, id: nat)
    requires Trace(states, steps)
    requires id < |states[0].runs| && IsTerminal(states[0].runs[id].status)
    ensures id < |states[|steps|].runs| && states[|steps|].runs[id] == states[0].runs[id]
    decreases steps
  {
    if steps != [] {
      var n := |steps| - 1;
      TracePrefix(states, steps);
      TerminalIsFinal(states[..n + 1], steps[..n], id);
      OneActiveAlways(states[..n + 1], steps[..n]);
      StepKeepsInv(states[n], steps[n], states[n + 1]);
    }
  }

  function Changes(states: seq<State>, id: nat): nat {
    if |states| < 2 then 0 else
      var a, b := states[|states| - 2].runs, states[|states| - 1].runs;
      Changes(states[..|states| - 1], id)
      + if id < |a| && id < |b| && a[id].status != b[id].status then 1 else 0
  }

  function Requeues(states: seq<State>, id: nat): nat {
    if |states| < 2 then 0 else
      var a, b := states[|states| - 2].runs, states[|states| - 1].runs;
      Requeues(states[..|states| - 1], id)
      + if id < |a| && id < |b| && a[id].status != Pending && b[id].status == Pending then 1 else 0
  }

  /** A natural number that every status change lowers. */
  function Potential(r: MrpRun): int { 4 * (MAX_RETRY - r.retry) + Rank(r.status) }

  /** However steps interleave, a run created in the trace changes status at most
      15 times and is put back to pending exactly retry_count times, so at most 3. */
  lemma {:induction false} FinitelyManyChanges(states: seq<State>, steps: seq<Step>, id: nat)
    requires Trace(states, steps) && id >= |states[0].runs| && id < |states[|steps|].runs|
    ensures var r := states[|steps|].runs[id];
            && Changes(states, id) + Potential(r) <= 15
            && Requeues(states, id) == r.retry <= MAX_RETRY
    decreases steps
  {
    var n := |steps| - 1;
    TracePrefix(states, steps);
    OneActiveAlways(states[..n + 1], steps[..n]);
    StepKeepsInv(states[n], steps[n], states[n + 1]);
    assert states[..|states| - 1] == states[..n + 1];
    assert states[n + 1].runs[id] in states[n + 1].runs;
    if id < |states[n].runs| {
      FinitelyManyChanges(states[..n + 1], steps[..n], id);
    } else {
      NoChangeBefore(states[..n + 1], steps[..n], id);
    }
  }

  lemma {:induction false} NoChangeBefore(states: seq<State>, steps: seq<Step>, id: nat)
    requires Trace(states, steps) && id >= |states[|steps|].runs|
    ensures Changes(states, id) == 0 && Requeues(states, id) == 0
    decreases steps
  {
    if steps != [] {
      var n := |steps| - 1;
      TracePrefix(states, steps);
      OneActiveAlways(states[..n + 1], steps[..n]);
      StepKeepsInv(states[n], steps[n], states[n + 1]);
      assert states[..|states| - 1] == states[..n + 1];
      NoChangeBefore(states[..n + 1], steps[..n], id);
    }
  }
}
