/** A reconciliation pass, statement by statement, against what it makes of the rows
    as a whole, and the transitions that the protocol takes. */
module MrpPasses {
  import opened Common
  import opened MrpRuns
  import opened MrpTables

  // ------------------------------------------------------------------
  // What a pass makes of one row
  // ------------------------------------------------------------------

  /** A stuck run and a failed one are retried up to three times, then fail for good;
      a running job that is not stuck and every other row stay. */
  lemma AfterPassIs(status: Status, retry: nat, stuck: bool)
    ensures AfterPass(MrpRun(status, retry), stuck)
         == if status == Failed || (status == Running && stuck)
            then if retry < 3 then MrpRun(Pending, retry + 1) else MrpRun(FailedPermanent, retry)
            else MrpRun(status, retry)
  {
  }

  // ------------------------------------------------------------------
  // Undisturbed passes
  // ------------------------------------------------------------------

  /** One pass on its own: from Idle to Idle, with no step of anyone else. */
  ghost predicate Pass(states: seq<State>, pcs: seq<Pc>) {
    && pcs != [] && |states| == |pcs| + 1
    && states[0].pc == Idle && Inv(states[0]) && states[|pcs|].pc == Idle
    && (forall i | 0 < i < |pcs| :: states[i].pc != Idle)
    && forall i | 0 <= i < |pcs| :: ReconcileStep(states[i], pcs[i], states[i + 1])
  }

  /** The rows once the retryable failures outside `todo` have been put back. */
  ghost predicate Retried(before: seq<MrpRun>, runs: seq<MrpRun>, todo: seq<Snapshot>) {
    && |runs| == |before|
    && forall i | 0 <= i < |runs| ::
         runs[i] == if Retryable(before[i]) && Snapshot(i, before[i].retry) !in todo
                    then MrpRun(Pending, before[i].retry + 1) else before[i]
  }

  /** The rows once the stuck runs outside `todo` have been dealt with, too. */
  ghost predicate Unstuck(before: State, runs: seq<MrpRun>, todo: seq<Snapshot>, stale: set<nat>) {
    && |runs| == |before.runs|
    && forall i | 0 <= i < |runs| ::
         runs[i] == AfterPass(before.runs[i],
                              i in stale && Snapshot(i, before.runs[i].retry) !in todo && !JobActive(before.queue, i))
  }

  ghost predicate FailedIn(before: seq<MrpRun>, todo: seq<Snapshot>) {
    DistinctIds(todo)
    && forall x | x in todo :: x.id < |before| && before[x.id] == MrpRun(Failed, x.retry) && x.retry < MAX_RETRY
  }

  ghost predicate RunningIn(before: seq<MrpRun>, todo: seq<Snapshot>, stale: set<nat>) {
    DistinctIds(todo)
    && forall x | x in todo :: x.id < |before| && before[x.id] == MrpRun(Running, x.retry) && x.id in stale
  }

  /** Where the pass that began at `before` stands, with `stale` selected as stuck. */
  ghost predicate Stands(before: State, s: State, stale: set<nat>) {
    && (forall id :: JobActive(s.queue, id) <==> JobActive(before.queue, id))
    && match s.pc
       case Idle => false
       case Ensuring(_) => s.runs == before.runs
       case Retrying(todo) => Retried(before.runs, s.runs, todo) && FailedIn(before.runs, todo)
       case Requeueing(_, rest) => Retried(before.runs, s.runs, rest) && FailedIn(before.runs, rest)
       case Sweeping => Retried(before.runs, s.runs, [])
       case Unsticking(todo) =>
         CanPass(before.runs) && Unstuck(before, s.runs, todo, stale) && RunningIn(before.runs, todo, stale)
       case RequeueingStuck(_, rest) =>
         CanPass(before.runs) && Unstuck(before, s.runs, rest, stale) && RunningIn(before.runs, rest, stale)
  }

  lemma QueueingKeepsActive(queue: map<nat, JobState>, id: nat)
    ensures forall x :: JobActive(EnsureQueued(queue, id), x) <==> JobActive(queue, x)
    ensures JobLive(EnsureQueued(queue, id), id)
  {
  }

  lemma HeadGone(todo: seq<Snapshot>, x: Snapshot)
    requires DistinctIds(todo) && todo != []
    ensures DistinctIds(todo[1..])
    ensures x in todo[1..] <==> x in todo && x.id != todo[0].id
  {
    if x in todo && x.id != todo[0].id {
      var i :| 0 <= i < |todo| && todo[i] == x;
      assert todo[1..][i - 1] == x;
    }
    if x in todo[1..] {
      var i :| 0 <= i < |todo[1..]| && todo[1..][i] == x;
      assert todo[i + 1] == x;
    }
  }

  lemma RetryStep(before: State, s: State, next: Pc, s': State, stale: set<nat>)
    requires s.pc.Retrying? && Stands(before, s, stale) && ReconcileStep(s, next, s') && s'.pc != Idle
    ensures Stands(before, s', stale)
  {
    var todo := s.pc.todo;
    if todo != [] {
      assert todo[0] in todo;
      forall y: Snapshot ensures y in todo[1..] <==> y in todo && y.id != todo[0].id {
        HeadGone(todo, y);
      }
    }
  }

  lemma UnstickStep(before: State, s: State, next: Pc, s': State, stale: set<nat>)
    requires s.pc.Unsticking? && Stands(before, s, stale) && ReconcileStep(s, next, s') && s'.pc != Idle
    ensures Stands(before, s', stale)
  {
    var todo := s.pc.stuck;
    var x := todo[0];
    assert x in todo;
    forall y: Snapshot ensures y in todo[1..] <==> y in todo && y.id != x.id {
      HeadGone(todo, y);
    }
    assert JobActive(s.queue, x.id) <==> JobActive(before.queue, x.id);
  }

  /** Retrying every failure leaves one active run only if the pass can finish. */
  lemma RetriedCanPass(before: seq<MrpRun>, runs: seq<MrpRun>)
    requires Retried(before, runs, []) && OneActive(runs)
    ensures CanPass(before)
  {
    if i :| 0 <= i < |before| && Retryable(before[i]) {
      assert IsActive(runs[i].status);
      forall j | 0 <= j < |before| ensures !IsActive(before[j].status) && (Retryable(before[j]) ==> j == i) {
        if IsActive(before[j].status) || Retryable(before[j]) {
          assert IsActive(runs[j].status);
        }
      }
    }
  }

  lemma SweepStep(before: State, s: State, next: Pc, s': State) returns (stale: set<nat>)
    requires s.pc == Sweeping && Stands(before, s, {}) && OneActive(s.runs) && ReconcileStep(s, next, s')
    ensures Stands(before, s', stale)
    ensures forall id | id in stale :: id < |before.runs| && before.runs[id].status == Running
  {
    stale := set x | x in next.stuck :: x.id;
    RetriedCanPass(before.runs, s.runs);
    forall x | x in next.stuck ensures x.id < |before.runs| && before.runs[x.id] == MrpRun(Running, x.retry) {
      assert SweepFailed(s.runs)[x.id] == MrpRun(Running, x.retry);
    }
    forall i | 0 <= i < |s'.runs| && i in stale ensures Snapshot(i, before.runs[i].retry) in next.stuck {
      var x :| x in next.stuck && x.id == i;
      assert x == Snapshot(i, before.runs[i].retry);
    }
  }

  lemma OtherStep(before: State, s: State, next: Pc, s': State, stale: set<nat>)
    requires Stands(before, s, stale) && ReconcileStep(s, next, s') && s'.pc != Idle
    requires s.pc.Ensuring? || s.pc.Requeueing? || s.pc.RequeueingStuck?
    ensures Stands(before, s', stale)
  {
    match s.pc
    case Ensuring(ids) =>
      if ids != [] {
        QueueingKeepsActive(s.queue, ids[0]);
      } else {
        forall i | 0 <= i < |s.runs| && Retryable(s.runs[i]) ensures Snapshot(i, s.runs[i].retry) in next.todo {
        }
      }
    case Requeueing(id, _) => QueueingKeepsActive(s.queue, id);
    case RequeueingStuck(id, _) => QueueingKeepsActive(s.queue, id);
  }

  lemma StandsStep(before: State, s: State, next: Pc, s': State, stale: set<nat>) returns (stale': set<nat>)
    requires Inv(s) && Stands(before, s, stale) && ReconcileStep(s, next, s') && s'.pc != Idle
    requires forall id | id in stale :: id < |before.runs| && before.runs[id].status == Running
    ensures Stands(before, s', stale')
    ensures forall id | id in stale' :: id < |before.runs| && before.runs[id].status == Running
  {
    stale' := stale;
    match s.pc
    case Retrying(_) => RetryStep(before, s, next, s', stale);
    case Unsticking(_) => UnstickStep(before, s, next, s', stale);
    case Sweeping =>
      assert Stands(before, s, {});
      stale' := SweepStep(before, s, next, s');
    case _ => OtherStep(before, s, next, s', stale);
  }

  lemma {:induction false} PassStands(states: seq<State>, pcs: seq<Pc>, k: nat) returns (stale: set<nat>)
    requires Pass(states, pcs) && 0 < k < |pcs|
    ensures Inv(states[k]) && Stands(states[0], states[k], stale)
    ensures forall id | id in stale :: id < |states[0].runs| && states[0].runs[id].status == Running
    decreases k
  {
    assert ReconcileStep(states[k - 1], pcs[k - 1], states[k]);
    if k == 1 {
      stale := {};
      ReconcileKeepsInv(states[0], pcs[0], states[1]);
    } else {
      stale := PassStands(states, pcs, k - 1);
      ReconcileKeepsInv(states[k - 1], pcs[k - 1], states[k]);
      stale := StandsStep(states[0], states[k - 1], pcs[k - 1], states[k], stale);
    }
  }

  /** What the pass leaves behind, whether it finished or a unique violation ended it. */
  ghost predicate Outcome(before: State, runs: seq<MrpRun>, stale: set<nat>) {
    |runs| == |before.runs|
    && if CanPass(before.runs)
       then forall i | 0 <= i < |runs| ::
              runs[i] == AfterPass(before.runs[i], i in stale && !JobActive(before.queue, i))
       else (forall i | 0 <= i < |runs| && !Retryable(before.runs[i]) :: runs[i] == before.runs[i])
            && (SomeActive(before.runs) ==> runs == before.runs)
  }

  /** A unique violation means that the pass could not finish. */
  lemma ViolationOutcome(before: State, s: State, stale: set<nat>)
    requires s.pc.Retrying? && s.pc.todo != [] && Stands(before, s, stale) && Inv(s) && SomeActive(s.runs)
    ensures Outcome(before, s.runs, stale) && !CanPass(before.runs)
  {
    var x := s.pc.todo[0];
    assert x in s.pc.todo && Retryable(before.runs[x.id]);
    var a :| 0 <= a < |s.runs| && IsActive(s.runs[a].status);
    assert s.runs[a] == before.runs[a] || (Retryable(before.runs[a]) && a != x.id);
    if j :| 0 <= j < |before.runs| && IsActive(before.runs[j].status) {
      assert IsActive(s.runs[j].status);
      forall i | 0 <= i < |s.runs| ensures s.runs[i] == before.runs[i] {
        assert s.runs[i] == before.runs[i] || IsActive(s.runs[i].status);
      }
    }
  }

  /** Statement by statement, an undisturbed pass makes of the rows exactly what the
      call `ReconcileTenant` promises, with those running rows stale that its last
      query selected. */
  lemma PassResult(states: seq<State>, pcs: seq<Pc>) returns (stale: set<nat>)
    requires Pass(states, pcs)
    ensures Outcome(states[0], states[|pcs|].runs, stale)
    ensures forall id | id in stale :: id < |states[0].runs| && states[0].runs[id].status == Running
  {
    var n := |pcs| - 1;
    assert ReconcileStep(states[n], pcs[n], states[n + 1]);
    assert n > 0;
    stale := PassStands(states, pcs, n);
    if states[n].pc.Retrying? {
      ViolationOutcome(states[0], states[n], stale);
    }
  }

  /** The failed rows with retries left, among the first `n`. */
  function RetryList(runs: seq<MrpRun>, n: nat): (todo: seq<Snapshot>)
    requires n <= |runs|
    ensures forall x :: x in todo <==> x.id < n && Retryable(runs[x.id]) && x.retry == runs[x.id].retry
    ensures DistinctIds(todo)
  {
    if n == 0 then []
    else RetryList(runs, n - 1) + if Retryable(runs[n - 1]) then [Snapshot(n - 1, runs[n - 1].retry)] else []
  }

  /** Wherever the reconciler is, it has a next step. */
  lemma ReconcilerProceeds(s: State) returns (next: Pc, s': State)
    ensures ReconcileStep(s, next, s')
  {
    match s.pc
    case Idle => next, s' := Ensuring([]), s.(pc := Ensuring([]));
    case Ensuring(ids) =>
      if ids == [] {
        next := Retrying(RetryList(s.runs, |s.runs|));
        s' := s.(pc := next);
      } else {
        next := Ensuring(ids[1..]);
        s' := s.(pc := next, queue := EnsureQueued(s.queue, ids[0]));
      }
    case Requeueing(id, rest) =>
      next := Retrying(rest);
      s' := s.(pc := next, queue := EnsureQueued(s.queue, id));
    case RequeueingStuck(id, rest) =>
      next := Unsticking(rest);
      s' := s.(pc := next, queue := EnsureQueued(s.queue, id));
    case Sweeping =>
      next := Unsticking([]);
      s' := s.(runs := SweepFailed(s.runs), pc := next);
    case Retrying(todo) => next, s' := RetryProceeds(s);
    case Unsticking(todo) => next, s' := UnstickProceeds(s);
  }

  lemma RetryProceeds(s: State) returns (next: Pc, s': State)
    requires s.pc.Retrying?
    ensures ReconcileStep(s, next, s')
  {
    var todo := s.pc.todo;
    if todo == [] {
      next, s' := Sweeping, s.(pc := Sweeping);
    } else if todo[0].id >= |s.runs| || s.runs[todo[0].id].status != Failed {
      next, s' := Retrying(todo[1..]), s.(pc := Retrying(todo[1..]));
    } else if SomeActive(s.runs) {
      next, s' := Idle, s.(pc := Idle);
    } else {
      next := Requeueing(todo[0].id, todo[1..]);
      s' := SetStatus(s, todo[0].id, MrpRun(Pending, todo[0].retry + 1)).(pc := next);
    }
  }

  lemma UnstickProceeds(s: State) returns (next: Pc, s': State)
    requires s.pc.Unsticking?
    ensures ReconcileStep(s, next, s')
  {
    var todo := s.pc.stuck;
    if todo == [] {
      next, s' := Idle, s.(pc := Idle);
    } else {
      var x := todo[0];
      next, s' := Unsticking(todo[1..]), s.(pc := Unsticking(todo[1..]));
      if !(x.id in s.queue && s.queue[x.id] == Active) && x.id < |s.runs| && s.runs[x.id].status == Running {
        if x.retry + 1 <= MAX_RETRY {
          next := RequeueingStuck(x.id, todo[1..]);
          s' := SetStatus(s, x.id, MrpRun(Pending, x.retry + 1)).(pc := next);
        } else {
          s' := SetStatus(s, x.id, s.runs[x.id].(status := FailedPermanent)).(pc := next);
        }
      }
    }
  }

  // ------------------------------------------------------------------
  // Every documented transition is taken
  // ------------------------------------------------------------------

  /** Some step of the protocol, from a state that keeps its invariant, takes a run from
      one status to the other. */
  ghost predicate Taken(from: Status, to: Status) {
    exists s: State, step: Step, s': State, id: nat ::
      && Inv(s) && Next(s, step, s') && id < |s.runs| && id < |s'.runs|
      && s.runs[id].status == from && s'.runs[id].status == to
  }

  lemma Takes(s: State, step: Step, s': State, from: Status, to: Status)
    requires Inv(s) && Next(s, step, s') && |s.runs| == |s'.runs| == 1
    requires s.runs[0].status == from && s'.runs[0].status == to
    ensures Taken(from, to)
  {
    assert s.runs[0].status == from;
  }

  /** The steps take exactly the documented transitions, and that of a stuck run whose
      retries are used up. */
  lemma TakenIff(from: Status, to: Status)
    requires from != to
    ensures Taken(from, to) <==> Transition(from, to)
  {
    if Taken(from, to) {
      var s: State, step: Step, s': State, id: nat :|
        && Inv(s) && Next(s, step, s') && id < |s.runs| && id < |s'.runs|
        && s.runs[id].status == from && s'.runs[id].status == to;
      StepKeepsInv(s, step, s');
      assert Follows(s.runs[id], s'.runs[id]);
    }
    if Transition(from, to) {
      Take(from, to);
    }
  }

  lemma Take(from: Status, to: Status)
    requires Transition(from, to)
    ensures Taken(from, to)
  {
    var r := MrpRun(from, if to == FailedPermanent then 3 else 0);
    var s := State([r], map[], {}, Idle);
    match to
    case Running => Takes(s, Claim(0), s.(runs := [r.(status := Running)]), from, to);
    case Completed => Takes(s, Finish(0, true), s.(runs := [r.(status := Completed)]), from, to);
    case Failed => Takes(s, Finish(0, false), s.(runs := [r.(status := Failed)]), from, to);
    case Cancelled => Takes(s, Cancel(0), s.(runs := [r.(status := Cancelled)]), from, to);
    case _ => TakeByPass(from, to, r);
  }

  lemma TakeByPass(from: Status, to: Status, r: MrpRun)
    requires (from == Running || from == Failed) && (to == Pending || to == FailedPermanent)
    requires r == MrpRun(from, if to == FailedPermanent then 3 else 0)
    ensures Taken(from, to)
  {
    var x := Snapshot(0, r.retry);
    var after := if to == Pending then MrpRun(Pending, 1) else MrpRun(FailedPermanent, 3);
    if from == Running {
      var next := if to == Pending then RequeueingStuck(0, []) else Unsticking([]);
      var s, s' := State([r], map[], {}, Unsticking([x])), State([after], map[], {}, next);
      Takes(s, Reconcile(next), s', from, to);
    } else if to == Pending {
      var s, s' := State([r], map[], {}, Retrying([x])), State([after], map[], {}, Requeueing(0, []));
      Takes(s, Reconcile(Requeueing(0, [])), s', from, to);
    } else {
      var s, s' := State([r], map[], {}, Sweeping), State([after], map[], {}, Unsticking([]));
      assert SweepFailed([r]) == [after];
      Takes(s, Reconcile(Unsticking([])), s', from, to);
    }
  }
}
