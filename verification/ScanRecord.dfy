/**
 A scan's rows as the pipeline's transactions change them in place. Every method is tied to the
 function of the same transaction, which the results over runs are about.
 */
module ScanRecord {
  import opened Prelude
  import opened Scans

  /** A stage in flight runs this job on this pool. */
  predicate Executes(stages: seq<Stage>, r: (JobId, Pool)) {
    exists k :: 0 <= k < |stages| && stages[k].status.Running? && stages[k].taskId == Some(r.0) && stages[k].pool.GetOr(DEFAULT_POOL) == r.1
  }

  class Record {
    const tenant: Tenant
    var status: ScanStatus
    var stages: seq<Stage>
    var secret: Option<string>

    ghost function View(): Scan
      reads this
    {
      Scan(tenant, status, stages, secret)
    }

    constructor (tenant: Tenant, stages: seq<Stage>, secret: Option<string>)
      ensures View() == Scan(tenant, ScanStatus.Pending, stages, secret)
    {
      this.tenant := tenant;
      status := ScanStatus.Pending;
      this.stages := stages;
      this.secret := secret;
    }

    /** Cancels every stage that is not finished; returns the jobs to revoke. */
    method Cancel() returns (revoked: seq<(JobId, Pool)>)
      modifies this
      ensures View() == CancelScan(old(View()))
      ensures forall k :: 0 <= k < |old(stages)| && old(stages)[k].status.Running? && old(stages)[k].taskId.Some? ==>
                (old(stages)[k].taskId.value, old(stages)[k].pool.GetOr(DEFAULT_POOL)) in revoked
      ensures forall r :: r in revoked ==> Executes(old(stages), r)
    {
      ghost var was := stages;
      revoked := [];
      var k := 0;
      while k < |stages|
        invariant 0 <= k <= |stages| == |was|
        invariant status == old(status) && secret == old(secret)
        invariant forall i :: 0 <= i < k ==> stages[i] == CancelStage(was[i])
        invariant forall i :: k <= i < |was| ==> stages[i] == was[i]
        invariant forall i :: 0 <= i < k && was[i].status.Running? && was[i].taskId.Some? ==>
                    (was[i].taskId.value, was[i].pool.GetOr(DEFAULT_POOL)) in revoked
        invariant forall r :: r in revoked ==> Executes(was, r)
      {
        var st := stages[k];
        if st.status.Running? && st.taskId.Some? {
          revoked := revoked + [(st.taskId.value, st.pool.GetOr(DEFAULT_POOL))];
        }
        if st.status.Pending? || st.status.Running? {
          stages := stages[k := st.(status := StageStatus.Cancelled)];
        }
        k := k + 1;
      }
      assert stages == CancelStages(was);
      status := ScanStatus.Cancelled;
      secret := None;
    }

    /** A waiting scan runs from now on, waits on, or is cancelled because its tenant is inactive. */
    method Start(inactive: bool, full: bool) returns (started: bool)
      modifies this
      ensures View() == TryStart(old(View()), inactive, full)
      ensures started <==> !old(status).Running? && status.Running?
    {
      started := false;
      if !status.Pending? && !status.Queued? {
        return;
      }
      if inactive {
        var _ := Cancel();
        return;
      }
      if full {
        status := ScanStatus.Queued;
        return;
      }
      status := ScanStatus.Running;
      started := true;
    }

    /** Skip pending stages without authorized targets and start the first one that has some. */
    method PrepareNext(authorized: set<nat>, pool: Pool, job: JobId) returns (next: Option<nat>)
      modifies this`stages
      ensures stages == Prepare(old(stages), authorized, pool, job, 0)
      ensures next.Some? ==> next.value < |stages| && stages[next.value].status.Running?
                             && old(stages)[next.value].status.Pending? && next.value in authorized
                             && forall k :: 0 <= k < next.value && old(stages)[k].status.Pending? ==> k !in authorized
      ensures next.None? ==> forall k :: 0 <= k < |stages| && old(stages)[k].status.Pending? ==> k !in authorized
      ensures next.None? ==> forall k :: 0 <= k < |stages| ==> !stages[k].status.Pending? && (stages[k].status.Running? ==> old(stages)[k].status.Running?)
    {
      ghost var was := stages;
      var k := 0;
      while k < |stages|
        invariant 0 <= k <= |stages| == |was|
        invariant Prepare(stages, authorized, pool, job, k) == Prepare(was, authorized, pool, job, 0)
        invariant forall i :: 0 <= i < k ==> !stages[i].status.Pending? && (stages[i].status.Running? ==> was[i].status.Running?)
        invariant forall i :: k <= i < |was| ==> stages[i] == was[i]
        invariant forall i :: 0 <= i < k && was[i].status.Pending? ==> i !in authorized
      {
        var st := stages[k];
        if st.status.Pending? {
          if k in authorized {
            stages := stages[k := StartStage(st, pool, job)];
            return Some(k);
          }
          stages := stages[k := SkipStage(st)];
        }
        k := k + 1;
      }
      next := None;
    }

    method FinalizeScan()
      modifies this`status, this`secret
      ensures View() == Finalize(old(View()))
    {
      if status.Cancelled? {
        return;
      }
      var failed, succeeded, partial := false, false, false;
      var k := 0;
      while k < |stages|
        invariant 0 <= k <= |stages|
        invariant failed == exists i :: 0 <= i < k && stages[i].status == StageStatus.Failed
        invariant partial == exists i :: 0 <= i < k && stages[i].status == StageStatus.Partial
        invariant succeeded == exists i :: 0 <= i < k && (stages[i].status == StageStatus.Completed || stages[i].status == StageStatus.Partial)
      {
        var st := stages[k].status;
        failed := failed || st.Failed?;
        partial := partial || st.Partial?;
        succeeded := succeeded || st.Completed? || st.Partial?;
        k := k + 1;
      }
      assert failed == AnyStage(stages, StageStatus.Failed) && partial == AnyStage(stages, StageStatus.Partial);
      assert succeeded == Succeeded(stages);
      status := if !succeeded && failed then ScanStatus.Failed
                else if failed || partial then ScanStatus.Partial
                else ScanStatus.Completed;
      secret := None;
    }

    /** The advance task: leaves a scan with a running stage alone, and ends one that has nothing left to start. */
    method AdvanceTask(inactive: bool, authorized: set<nat>, pool: Pool, job: JobId) returns (next: Option<nat>)
      modifies this
      ensures View() == Advance(old(View()), inactive, authorized, pool, job)
      ensures next.Some? ==> next.value < |stages| && stages[next.value].taskId == Some(job) && stages[next.value].status.Running?
    {
      next := None;
      if !status.Running? || InFlight(stages) {
        return;
      }
      if inactive {
        var _ := Cancel();
        FinalizeScan();
        return;
      }
      ghost var was := stages;
      next := PrepareNext(authorized, pool, job);
      if next.None? {
        assert !InFlight(stages);
        FinalizeScan();
      } else {
        assert InFlight(stages);
        StartedTask(was, authorized, pool, job, 0, next.value);
      }
    }

    method MarkDispatched(k: nat, job: JobId)
      requires k < |stages|
      modifies this`stages
      ensures View() == Scans.Mark(old(View()), k, job)
    {
      if stages[k].taskId == Some(job) && !stages[k].dispatched {
        stages := stages[k := stages[k].(dispatched := true)];
      }
    }

    method Fail(k: nat)
      requires k < |stages|
      modifies this`stages
      ensures View() == FailStage(old(View()), k)
    {
      if !stages[k].status.Running? {
        return;
      }
      stages := stages[k := stages[k].(status := if stages[k].optional then StageStatus.Skipped else StageStatus.Failed)];
    }

    /** Apply a submitted result to the stage it answers; false when it answers none. */
    method SubmitResult(scanId: ScanId, env: Envelope, outcome: Outcome) returns (accepted: bool)
      modifies this`stages
      ensures accepted == (env.scanId == scanId && BindingError(Some(old(View())), env).None?)
      ensures View() == if accepted then CompleteStage(old(View()), env.stage, outcome) else old(View())
      ensures accepted ==> Finished(stages[env.stage].status)
    {
      if env.scanId != scanId || BindingError(Some(Scan(tenant, status, stages, secret)), env).Some? {
        return false;
      }
      var k := env.stage;
      var st := stages[k];
      match outcome {
        case FailedResult => stages := stages[k := st.(status := if st.optional then StageStatus.Skipped else StageStatus.Failed)];
        case OkResult => stages := stages[k := st.(status := StageStatus.Completed)];
        case PartialResult => stages := stages[k := st.(status := StageStatus.Partial)];
      }
      accepted := true;
    }
  }

  /** A stage that preparing put in flight carries the new job. */
  lemma {:induction false} StartedTask(stages: seq<Stage>, authorized: set<nat>, pool: Pool, job: JobId, k: nat, m: nat)
    requires k <= |stages| && m < |stages|
    requires !stages[m].status.Running? && Prepare(stages, authorized, pool, job, k)[m].status.Running?
    ensures Prepare(stages, authorized, pool, job, k)[m].taskId == Some(job)
    decreases |stages| - k
  {
    if k < |stages| {
      if !stages[k].status.Pending? {
        StartedTask(stages, authorized, pool, job, k + 1, m);
      } else if k !in authorized {
        StartedTask(stages[k := SkipStage(stages[k])], authorized, pool, job, k + 1, m);
      }
    }
  }
}
