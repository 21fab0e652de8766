/** The MRP services over their table and queue, one call at a time: what a whole
    reconciliation pass does, and when it cannot finish. */
module MrpTables {
  import opened Common
  import opened MrpRuns

  predicate SomeRetryable(runs: seq<MrpRun>) {
    exists i | 0 <= i < |runs| :: Retryable(runs[i])
  }

  /** No failed run waits for a retry, or exactly one does and no run is active. */
  predicate CanPass(runs: seq<MrpRun>) {
    || !SomeRetryable(runs)
    || (!SomeActive(runs) && forall i, j | 0 <= i < j < |runs| :: !(Retryable(runs[i]) && Retryable(runs[j])))
  }

  /** A failure to retry beside an active run is within reach: a run fails, and the
      next one is triggered before the reconciler comes by. */
  lemma FailureBesideActiveRun() returns (states: seq<State>, steps: seq<Step>)
    ensures Trace(states, steps) && states[0] == State([], map[], {}, Idle)
    ensures SomeActive(states[|steps|].runs) && SomeRetryable(states[|steps|].runs) && !CanPass(states[|steps|].runs)
  {
    var failed := MrpRun(Failed, 0);
    states, steps := [State([], map[], {}, Idle)], [];
    states, steps := Extend(states, steps, TriggerCheck(0), State([], map[], {0}, Idle));
    states, steps := Extend(states, steps, TriggerInsert(0), State([MrpRun(Pending, 0)], map[], {}, Idle));
    states, steps := Extend(states, steps, Claim(0), State([MrpRun(Running, 0)], map[], {}, Idle));
    states, steps := Extend(states, steps, Finish(0, false), State([failed], map[], {}, Idle));
    states, steps := Extend(states, steps, TriggerCheck(1), State([failed], map[], {1}, Idle));
    states, steps := Extend(states, steps, TriggerInsert(1), State([failed, MrpRun(Pending, 0)], map[], {}, Idle));
    assert Retryable(states[|steps|].runs[0]) && IsActive(states[|steps|].runs[1].status);
  }

  lemma Extend(states: seq<State>, steps: seq<Step>, step: Step, s: State)
    returns (states': seq<State>, steps': seq<Step>)
    requires Trace(states, steps) && Next(states[|steps|], step, s)
    ensures Trace(states', steps') && states'[0] == states[0] && |steps'| == |steps| + 1 && states'[|steps'|] == s
  {
    states', steps' := states + [s], steps + [step];
  }

  predicate JobActive(queue: map<nat, JobState>, id: nat) { id in queue && queue[id] == Active }

  predicate JobLive(queue: map<nat, JobState>, id: nat) { id in queue && queue[id] != Finished }

  /** What a finished pass makes of one run. */
  function AfterPass(r: MrpRun, stuck: bool): MrpRun {
    if Retryable(r) then MrpRun(Pending, r.retry + 1)
    else if r.status == Failed then r.(status := FailedPermanent)
    else if r.status == Running && stuck then
      if r.retry + 1 <= MAX_RETRY then MrpRun(Pending, r.retry + 1) else r.(status := FailedPermanent)
    else r
  }

  class Tables {
    var runs: seq<MrpRun>
    var queue: map<nat, JobState>

    constructor ()
      ensures RunsOk(runs) && runs == [] && queue == map[]
    {
      runs, queue := [], map[];
    }

    /** triggerRun without interference; `enqueued` says whether the queue accepted the job. */
    method TriggerRun(enqueued: bool) returns (id: Option<nat>)
      requires RunsOk(runs)
      modifies this
      ensures RunsOk(runs)
      ensures id.None? <==> SomeActive(old(runs))
      ensures id.None? ==> runs == old(runs) && queue == old(queue)
      ensures id.Some? ==> id.value == |old(runs)| && runs == old(runs) + [MrpRun(Pending, 0)]
      ensures id.Some? ==> queue == if enqueued then old(queue)[id.value := Waiting] else old(queue)
    {
      if SomeActive(runs) {
        return None;
      }
      id := Some(|runs|);
      runs := runs + [MrpRun(Pending, 0)];
      if enqueued {
        queue := queue[id.value := Waiting];
      }
    }

    /** The retry loop: each failed run is put back to pending and queued; the first
        update that the unique index refuses ends the pass. */
    method RetryFailed() returns (completed: bool)
      requires RunsOk(runs)
      modifies this
      ensures RunsOk(runs) && |runs| == |old(runs)|
      ensures completed <==> CanPass(old(runs))
      ensures completed ==> forall i | 0 <= i < |runs| ::
                runs[i] == if Retryable(old(runs)[i]) then MrpRun(Pending, old(runs)[i].retry + 1) else old(runs)[i]
      ensures completed ==> forall i | 0 <= i < |runs| && Retryable(old(runs)[i]) :: JobLive(queue, i)
      ensures forall i | 0 <= i < |runs| && !Retryable(old(runs)[i]) :: runs[i] == old(runs)[i]
      ensures SomeActive(old(runs)) && SomeRetryable(old(runs)) ==> runs == old(runs)
      ensures forall id | JobLive(old(queue), id) :: JobLive(queue, id)
      ensures forall id: nat | id < |runs| && !Retryable(old(runs)[id]) :: JobActive(queue, id)
                <==> JobActive(old(queue), id)
    {
      var failed := runs;
      ghost var retried: Option<nat> := None;
      for i := 0 to |failed|
        invariant RunsOk(runs)
        invariant retried.None? ==> runs == failed && queue == old(queue)
        invariant retried.None? ==> forall j | 0 <= j < i :: !Retryable(failed[j])
        invariant retried.Some? ==> retried.value < i && Retryable(failed[retried.value]) && !SomeActive(failed)
        invariant retried.Some? ==> forall j | 0 <= j < i && Retryable(failed[j]) :: j == retried.value
        invariant retried.Some? ==> runs == failed[retried.value := MrpRun(Pending, failed[retried.value].retry + 1)]
        invariant retried.Some? ==> queue == EnsureQueued(old(queue), retried.value)
      {
        if Retryable(failed[i]) {
          assert retried.Some? ==> IsActive(runs[retried.value].status);
          if SomeActive(runs) {
            return false;
          }
          UpdateRun(runs, i, MrpRun(Pending, failed[i].retry + 1));
          runs := runs[i := MrpRun(Pending, failed[i].retry + 1)];
          queue := EnsureQueued(queue, i);
          retried := Some(i);
        }
      }
      completed := true;
    }

    /** The last loop: running rows that started long ago and whose job is not active. */
    method Unstick(stale: set<nat>)
      requires RunsOk(runs)
      modifies this
      ensures RunsOk(runs) && |runs| == |old(runs)|
      ensures forall i | 0 <= i < |runs| ::
                runs[i] == if old(runs)[i].status == Running
                           then AfterPass(old(runs)[i], i in stale && !JobActive(old(queue), i)) else old(runs)[i]
      ensures forall i | 0 <= i < |runs| && old(runs)[i].status == Running && i in stale && !JobActive(old(queue), i) ::
                if old(runs)[i].retry < 3
                then runs[i] == MrpRun(Pending, old(runs)[i].retry + 1) && JobLive(queue, i)
                else runs[i] == MrpRun(FailedPermanent, old(runs)[i].retry)
      ensures forall i | 0 <= i < |runs| && old(runs)[i].status == Running && runs[i].status == Pending ::
                JobLive(queue, i)
      ensures forall id | JobLive(old(queue), id) :: JobLive(queue, id)
    {
      var stuck := runs;
      for i := 0 to |stuck|
        invariant |runs| == |stuck| && RunsOk(runs)
        invariant forall j | 0 <= j < i ::
                    runs[j] == if stuck[j].status == Running
                               then AfterPass(stuck[j], j in stale && !JobActive(old(queue), j)) else stuck[j]
        invariant forall j | i <= j < |stuck| :: runs[j] == stuck[j]
                    && (JobActive(queue, j) <==> JobActive(old(queue), j))
        invariant forall j | 0 <= j < i && stuck[j].status == Running && runs[j].status == Pending :: JobLive(queue, j)
        invariant forall id | JobLive(old(queue), id) :: JobLive(queue, id)
      {
        if stuck[i].status == Running && i in stale && !JobActive(queue, i) {
          assert runs[i] in runs;
          UpdateRun(runs, i, AfterPass(stuck[i], true));
          runs := runs[i := AfterPass(stuck[i], true)];
          if stuck[i].retry + 1 <= MAX_RETRY {
            queue := EnsureQueued(queue, i);
          }
        }
      }
    }

    /** reconcileTenant without interference. `due` are the ids created more than 30
        seconds ago, `stale` those started more than 5 minutes ago. The pass gets
        past its retry loop exactly when CanPass holds; with a retryable failure
        beside an active run it changes no row at all, so a stuck run is not
        reached, by this pass or any later one. */
    method ReconcileTenant(due: set<nat>, stale: set<nat>) returns (completed: bool)
      requires RunsOk(runs)
      modifies this
      ensures RunsOk(runs) && |runs| == |old(runs)|
      ensures completed <==> CanPass(old(runs))
      ensures completed ==> forall i | 0 <= i < |runs| ::
                runs[i] == AfterPass(old(runs)[i], i in stale && !JobActive(old(queue), i))
      ensures completed ==>
                forall i | 0 <= i < |runs| ::
                  var before, after := old(runs)[i], runs[i];
                  if before.status == Failed
                     || (before.status == Running && i in stale && !JobActive(old(queue), i))
                  then if before.retry < 3 then after == MrpRun(Pending, before.retry + 1) && JobLive(queue, i)
                       else after == MrpRun(FailedPermanent, before.retry)
                  else after == before
      ensures completed ==>
                forall i | 0 <= i < |runs| && runs[i].status == Pending
                    && (old(runs)[i].status != Pending || i in due) ::
                JobLive(queue, i)
      ensures !completed ==> forall i | 0 <= i < |runs| && !Retryable(old(runs)[i]) :: runs[i] == old(runs)[i]
      ensures SomeActive(old(runs)) && SomeRetryable(old(runs)) ==> !completed && runs == old(runs)
    {
      for i := 0 to |runs|
        invariant runs == old(runs)
        invariant forall j | 0 <= j < i && runs[j].status == Pending && j in due :: JobLive(queue, j)
        invariant forall id: nat | id < |runs| && runs[id].status == Running :: JobActive(queue, id)
                    <==> JobActive(old(queue), id)
      {
        if runs[i].status == Pending && i in due {
          queue := EnsureQueued(queue, i);
        }
      }
      completed := RetryFailed();
      if completed {
        SweepKeepsOk(runs);
        runs := SweepFailed(runs);
        Unstick(stale);
      }
    }
  }

  /** What the cron job knows of the clock for one tenant. */
  datatype Clock = Clock(due: set<nat>, stale: set<nat>)

  /** reconcileStuckJobs: one try block around the loop over the tenants. The first
      tenant whose pass cannot finish ends the job, and no tenant after it is reached. */
  method ReconcileAll(tenants: seq<Tables>, clocks: seq<Clock>) returns (done: nat)
    requires Distinct(tenants) && |clocks| == |tenants|
    requires forall t | t in tenants :: RunsOk(t.runs)
    modifies set t | t in tenants
    ensures done <= |tenants| && forall t | t in tenants :: RunsOk(t.runs)
    ensures done == |tenants| <==> forall t | t in tenants :: CanPass(old(t.runs))
    ensures done < |tenants| ==> !CanPass(old(tenants[done].runs))
    ensures forall i | 0 <= i < done :: CanPass(old(tenants[i].runs))
              && Passed(old(tenants[i].runs), old(tenants[i].queue), clocks[i], tenants[i].runs)
    ensures forall i | done < i < |tenants| :: tenants[i].runs == old(tenants[i].runs)
              && tenants[i].queue == old(tenants[i].queue)
  {
    done := 0;
    while done < |tenants|
      invariant done <= |tenants| && forall t | t in tenants :: RunsOk(t.runs)
      invariant forall i | 0 <= i < done :: CanPass(old(tenants[i].runs))
                  && Passed(old(tenants[i].runs), old(tenants[i].queue), clocks[i], tenants[i].runs)
      invariant forall i | done <= i < |tenants| :: tenants[i].runs == old(tenants[i].runs)
                  && tenants[i].queue == old(tenants[i].queue)
    {
      var tenant := tenants[done];
      assert tenant in tenants;
      assert forall i | 0 <= i < |tenants| && i != done :: tenants[i] != tenant;
      var completed := tenant.ReconcileTenant(clocks[done].due, clocks[done].stale);
      if !completed {
        return;
      }
      done := done + 1;
    }
  }

  ghost predicate Passed(runs: seq<MrpRun>, queue: map<nat, JobState>, clock: Clock, after: seq<MrpRun>) {
    |after| == |runs|
    && forall i | 0 <= i < |runs| ::
        after[i] == AfterPass(runs[i], i in clock.stale && !JobActive(queue, i))
  }
}
