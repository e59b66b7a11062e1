/**
 One scan and its stages: what each transaction of the scan pipeline does to the scan's row and
 the rows of its stages (backend/app/scans/orchestrator.py and the tasks that drive it).

 Stages are held in the order of their positions.
 */
module Scans {
  import opened Prelude

  type Tenant = nat
  type ScanId = nat
  type JobId = nat
  type Pool = string
  type Engine = string

  const DEFAULT_POOL: Pool := "default"

  datatype ScanStatus = Pending | Queued | Running | Completed | Partial | Failed | Cancelled

  datatype StageStatus = Pending | Running | Completed | Partial | Failed | Skipped | Cancelled

  datatype Stage = Stage(
    engine: Engine,
    optional: bool,
    status: StageStatus,
    taskId: Option<JobId>,
    pool: Option<Pool>,
    dispatched: bool)

  datatype Scan = Scan(tenant: Tenant, status: ScanStatus, stages: seq<Stage>, secret: Option<string>)

  predicate Finished(s: StageStatus) {
    !s.Pending? && !s.Running?
  }

  predicate Over(s: ScanStatus) {
    !s.Pending? && !s.Queued? && !s.Running?
  }

  function NewStage(engine: Engine, optional: bool): Stage {
    Stage(engine, optional, StageStatus.Pending, None, None, false)
  }

  // ----------------------------------------------------------------- cancelling

  function CancelStage(st: Stage): Stage {
    if Finished(st.status) then st else st.(status := StageStatus.Cancelled)
  }

  function CancelStages(stages: seq<Stage>): (r: seq<Stage>)
    ensures |r| == |stages|
    ensures forall k :: 0 <= k < |stages| ==> r[k] == CancelStage(stages[k])
  {
    seq(|stages|, k requires 0 <= k < |stages| => CancelStage(stages[k]))
  }

  function CancelScan(scan: Scan): Scan {
    scan.(status := ScanStatus.Cancelled, stages := CancelStages(scan.stages), secret := None)
  }

  // ------------------------------------------------------------------- starting

  /** `full` says that the tenant or the platform already runs as many scans as it may. */
  function TryStart(scan: Scan, inactive: bool, full: bool): Scan {
    if !scan.status.Pending? && !scan.status.Queued? then scan
    else if inactive then CancelScan(scan)
    else if full then scan.(status := ScanStatus.Queued)
    else scan.(status := ScanStatus.Running)
  }

  // ------------------------------------------------------------------ advancing

  function StartStage(st: Stage, pool: Pool, job: JobId): Stage {
    st.(status := StageStatus.Running, taskId := Some(job), pool := Some(pool), dispatched := false)
  }

  function SkipStage(st: Stage): Stage {
    st.(status := StageStatus.Skipped)
  }

  /** From position `k` on: the first pending stage with authorized targets starts, the pending ones before it are skipped. */
  function Prepare(stages: seq<Stage>, authorized: set<nat>, pool: Pool, job: JobId, k: nat): (r: seq<Stage>)
    requires k <= |stages|
    ensures |r| == |stages|
    decreases |stages| - k
  {
    if k == |stages| then stages
    else if !stages[k].status.Pending? then Prepare(stages, authorized, pool, job, k + 1)
    else if k in authorized then stages[k := StartStage(stages[k], pool, job)]
    else Prepare(stages[k := SkipStage(stages[k])], authorized, pool, job, k + 1)
  }

  predicate InFlight(stages: seq<Stage>) {
    exists k :: 0 <= k < |stages| && stages[k].status.Running?
  }

  predicate AnyStage(stages: seq<Stage>, s: StageStatus) {
    exists k :: 0 <= k < |stages| && stages[k].status == s
  }

  predicate Succeeded(stages: seq<Stage>) {
    AnyStage(stages, StageStatus.Completed) || AnyStage(stages, StageStatus.Partial)
  }

  function Verdict(stages: seq<Stage>): ScanStatus {
    if !Succeeded(stages) && AnyStage(stages, StageStatus.Failed) then ScanStatus.Failed
    else if AnyStage(stages, StageStatus.Failed) || AnyStage(stages, StageStatus.Partial) then ScanStatus.Partial
    else ScanStatus.Completed
  }

  function Finalize(scan: Scan): Scan {
    if scan.status.Cancelled? then scan else scan.(status := Verdict(scan.stages), secret := None)
  }

  function Advance(scan: Scan, inactive: bool, authorized: set<nat>, pool: Pool, job: JobId): Scan {
    if !scan.status.Running? || InFlight(scan.stages) then scan
    else if inactive then Finalize(CancelScan(scan))
    else
      var stages := Prepare(scan.stages, authorized, pool, job, 0);
      if InFlight(stages) then scan.(stages := stages) else Finalize(scan.(stages := stages))
  }

  function Mark(scan: Scan, k: nat, job: JobId): Scan
    requires k < |scan.stages|
  {
    if scan.stages[k].taskId == Some(job) && !scan.stages[k].dispatched
    then scan.(stages := scan.stages[k := scan.stages[k].(dispatched := true)])
    else scan
  }

  // -------------------------------------------------------------------- results

  datatype Outcome = OkResult | PartialResult | FailedResult

  function Lost(st: Stage): StageStatus {
    if st.optional then StageStatus.Skipped else StageStatus.Failed
  }

  function CompleteStage(scan: Scan, k: nat, outcome: Outcome): Scan
    requires k < |scan.stages|
  {
    var st := scan.stages[k];
    if !st.status.Running? || !scan.status.Running? then scan
    else
      var status := match outcome
        case FailedResult => Lost(st)
        case OkResult => StageStatus.Completed
        case PartialResult => StageStatus.Partial;
      scan.(stages := scan.stages[k := st.(status := status)])
  }

  function FailStage(scan: Scan, k: nat): Scan
    requires k < |scan.stages|
  {
    var st := scan.stages[k];
    if !st.status.Running? then scan else scan.(stages := scan.stages[k := st.(status := Lost(st))])
  }

  datatype Envelope = Envelope(jobId: JobId, pool: Pool, tenant: Tenant, scanId: ScanId, stage: nat, adapter: Engine)

  datatype Refusal = NoSuchStage | WrongJob | WrongPool | WrongEngine | Stale

  function BindingError(scan: Option<Scan>, env: Envelope): Option<Refusal> {
    if scan.None? || env.stage >= |scan.value.stages| || scan.value.tenant != env.tenant then Some(NoSuchStage)
    else
      var st := scan.value.stages[env.stage];
      if st.taskId != Some(env.jobId) then Some(WrongJob)
      else if st.pool.GetOr(DEFAULT_POOL) != env.pool then Some(WrongPool)
      else if st.engine != env.adapter then Some(WrongEngine)
      else if !st.status.Running? || !scan.value.status.Running? then Some(Stale)
      else None
  }

  // ------------------------------------------------------------------ the shape

  /** By position: finished stages, then at most one in flight, then pending ones. */
  ghost predicate Ordered(stages: seq<Stage>) {
    forall i, j :: 0 <= i < j < |stages| && !stages[j].status.Pending? ==> Finished(stages[i].status)
  }

  predicate StageOk(st: Stage) {
    && (st.status.Pending? ==> st.taskId.None? && !st.dispatched)
    && (st.status.Running? ==> st.taskId.Some?)
  }

  ghost predicate ScanOk(scan: Scan) {
    && Ordered(scan.stages)
    && (forall k :: 0 <= k < |scan.stages| ==> StageOk(scan.stages[k]))
    && (Over(scan.status) ==> scan.secret.None? && forall k :: 0 <= k < |scan.stages| ==> Finished(scan.stages[k].status))
    && (scan.status.Pending? || scan.status.Queued? ==> forall k :: 0 <= k < |scan.stages| ==> scan.stages[k].status.Pending?)
  }

  /**
   What preparing does, whatever the authorizations: the first pending stage that is authorized starts, those
   pending before it are skipped, and the rest stay pending; if none is authorized all pending ones are skipped.
   Finished stages are untouched.
   */
  lemma {:induction false} PrepareShape(stages: seq<Stage>, authorized: set<nat>, pool: Pool, job: JobId, k: nat) returns (m: nat)
    requires k <= |stages| && Ordered(stages) && !InFlight(stages)
    requires forall i :: 0 <= i < k ==> Finished(stages[i].status)
    ensures k <= m <= |stages|
    ensures var r := Prepare(stages, authorized, pool, job, k);
            && (forall i :: 0 <= i < m ==> r[i] == if stages[i].status.Pending? then SkipStage(stages[i]) else stages[i])
            && (m < |stages| ==> stages[m].status.Pending? && m in authorized && r[m] == StartStage(stages[m], pool, job))
            && (forall i :: m < i < |stages| ==> r[i] == stages[i] && stages[i].status.Pending?)
    ensures forall i :: 0 <= i < m && stages[i].status.Pending? ==> i !in authorized
    decreases |stages| - k
  {
    if k == |stages| {
      m := k;
    } else if !stages[k].status.Pending? {
      m := PrepareShape(stages, authorized, pool, job, k + 1);
    } else if k in authorized {
      m := k;
    } else {
      var next := stages[k := SkipStage(stages[k])];
      m := PrepareShape(next, authorized, pool, job, k + 1);
    }
  }

  /** After preparing, exactly one stage is in flight or every stage is finished; the order holds. */
  lemma PrepareOk(stages: seq<Stage>, authorized: set<nat>, pool: Pool, job: JobId)
    requires Ordered(stages) && !InFlight(stages) && forall k :: 0 <= k < |stages| ==> StageOk(stages[k])
    ensures var r := Prepare(stages, authorized, pool, job, 0);
            && Ordered(r)
            && (forall k :: 0 <= k < |r| ==> StageOk(r[k]))
            && (!InFlight(r) ==> forall k :: 0 <= k < |r| ==> Finished(r[k].status))
  {
    var m := PrepareShape(stages, authorized, pool, job, 0);
    var r := Prepare(stages, authorized, pool, job, 0);
    if m < |stages| {
      assert r[m].status.Running?;
    }
  }

  lemma CancelOk(scan: Scan)
    requires ScanOk(scan)
    ensures ScanOk(CancelScan(scan)) && Over(CancelScan(scan).status)
  {
  }

  lemma AdvanceOk(scan: Scan, inactive: bool, authorized: set<nat>, pool: Pool, job: JobId)
    requires ScanOk(scan)
    ensures ScanOk(Advance(scan, inactive, authorized, pool, job))
  {
    if scan.status.Running? && !InFlight(scan.stages) {
      if inactive {
        CancelOk(scan);
      } else {
        PrepareOk(scan.stages, authorized, pool, job);
      }
    }
  }

  lemma OneStageOk(scan: Scan, k: nat, st: Stage)
    requires ScanOk(scan) && k < |scan.stages| && StageOk(st)
    requires st.status == scan.stages[k].status || (scan.stages[k].status.Running? && Finished(st.status))
    ensures ScanOk(scan.(stages := scan.stages[k := st]))
  {
  }

  lemma StartOk(scan: Scan, inactive: bool, full: bool)
    requires ScanOk(scan)
    ensures ScanOk(TryStart(scan, inactive, full))
  {
    CancelOk(scan);
  }

  lemma TasksOk(scan: Scan, k: nat, job: JobId, outcome: Outcome)
    requires ScanOk(scan) && k < |scan.stages|
    ensures ScanOk(Mark(scan, k, job)) && ScanOk(CompleteStage(scan, k, outcome)) && ScanOk(FailStage(scan, k))
  {
    var st := scan.stages[k];
    assert StageOk(st);
    if st.taskId == Some(job) {
      OneStageOk(scan, k, st.(dispatched := true));
    }
    if st.status.Running? {
      OneStageOk(scan, k, st.(status := Lost(st)));
      OneStageOk(scan, k, st.(status := StageStatus.Completed));
      OneStageOk(scan, k, st.(status := StageStatus.Partial));
    }
  }

  /** What the final status of an uncancelled scan says about its stages. */
  lemma VerdictMeans(stages: seq<Stage>)
    requires forall k :: 0 <= k < |stages| ==> Finished(stages[k].status) && !stages[k].status.Cancelled?
    ensures Verdict(stages).Completed? <==> forall k :: 0 <= k < |stages| ==> stages[k].status.Completed? || stages[k].status.Skipped?
    ensures Verdict(stages).Failed? <==> AnyStage(stages, StageStatus.Failed)
                                         && forall k :: 0 <= k < |stages| ==> stages[k].status.Failed? || stages[k].status.Skipped?
    ensures Verdict(stages).Completed? || Verdict(stages).Failed? || Verdict(stages).Partial?
  {
    if !AnyStage(stages, StageStatus.Failed) && !AnyStage(stages, StageStatus.Partial) {
      forall k | 0 <= k < |stages|
        ensures stages[k].status.Completed? || stages[k].status.Skipped?
      {
        assert stages[k].status != StageStatus.Failed && stages[k].status != StageStatus.Partial;
      }
    }
    if !Succeeded(stages) {
      forall k | 0 <= k < |stages|
        ensures stages[k].status.Failed? || stages[k].status.Skipped?
      {
        assert stages[k].status != StageStatus.Completed && stages[k].status != StageStatus.Partial;
      }
    }
  }
}
