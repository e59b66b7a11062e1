/**
 The life of one stage and of one scan: what each task does to them, said of that stage alone.
 */
module ScanLife {
  import opened Prelude
  import opened Scans
  import opened ScanRuns

  /** The step cancels the scan: a user, the suspension of its tenant, or a start or advance that finds it inactive. */
  predicate Cancels(scan: Scan, step: Step, id: ScanId) {
    match step
    case Cancel(i) => i == id && (scan.status.Pending? || scan.status.Queued? || scan.status.Running?)
    case CancelTenant(t) => t == scan.tenant && (scan.status.Pending? || scan.status.Queued? || scan.status.Running?)
    case StartScan(i, inactive) => i == id && inactive && (scan.status.Pending? || scan.status.Queued?)
    case AdvanceScan(i, inactive, _, _) => i == id && inactive && scan.status.Running? && forall k :: 0 <= k < |scan.stages| ==> !scan.stages[k].status.Running?
    case _ => false
  }

  /** The step looks for the next stage to run. */
  predicate LooksForNext(scan: Scan, step: Step, id: ScanId) {
    step.AdvanceScan? && step.id == id && !step.inactive && scan.status.Running? && forall k :: 0 <= k < |scan.stages| ==> !scan.stages[k].status.Running?
  }

  /** A pending stage before this one may run. */
  predicate AnEarlierMayRun(scan: Scan, authorized: set<nat>, k: nat) {
    exists i :: 0 <= i < k && i < |scan.stages| && scan.stages[i].status.Pending? && i in authorized
  }

  /**
   A pending stage starts exactly when the scan looks for the next one, it is authorized and no earlier pending one
   is, with a new job for the pool; it is skipped exactly when it then is not authorized; it is cancelled exactly
   with the scan; otherwise it stays as it is.
   */
  lemma PendingStage(s: State, limits: Limits, step: Step, id: ScanId, k: nat)
    requires id in s.scans && ScanOk(s.scans[id]) && k < |s.scans[id].stages| && s.scans[id].stages[k].status.Pending?
    ensures |Effect(s, limits, step, id).stages| == |s.scans[id].stages|
    ensures var scan := s.scans[id];
            var a, b := scan.stages[k], Effect(s, limits, step, id).stages[k];
            if Cancels(scan, step, id) then b == a.(status := StageStatus.Cancelled)
            else if !LooksForNext(scan, step, id) || AnEarlierMayRun(scan, step.authorized, k) then b == a
            else if k in step.authorized then b == Stage(a.engine, a.optional, StageStatus.Running, Some(s.nextJob), Some(step.pool), false)
            else b == a.(status := StageStatus.Skipped)
  {
    var scan := s.scans[id];
    assert StageOk(scan.stages[k]);
    if LooksForNext(scan, step, id) {
      var m := PrepareShape(scan.stages, step.authorized, step.pool, s.nextJob, 0);
      if m < k {
        assert AnEarlierMayRun(scan, step.authorized, k);
      }
    }
  }

  /** The step reports that the job of the stage was lost, or could not be sent. */
  predicate Loses(step: Step, id: ScanId, k: nat, st: Stage) {
    match step
    case StageLost(i, l) => i == id && l == k
    case NotDispatched(i, l, job) => i == id && l == k && st.taskId == Some(job)
    case _ => false
  }

  /** The step is a result for this very stage: scan, stage, tenant, job, pool and engine agree and both run. */
  predicate Answers(scan: Scan, step: Step, id: ScanId, k: nat)
    requires k < |scan.stages|
  {
    && step.Result? && step.env.scanId == id && step.env.stage == k && step.env.tenant == scan.tenant
    && scan.stages[k].taskId == Some(step.env.jobId) && scan.stages[k].engine == step.env.adapter
    && (match scan.stages[k].pool case Some(p) => p case None => "default") == step.env.pool
    && scan.stages[k].status.Running? && scan.status.Running?
  }

  /**
   A running stage is completed or partial by a result that says so and answers it; one that says it failed, and the
   loss of its job, fail it or, if it is optional, skip it; it is cancelled exactly with the scan; otherwise it keeps
   running, and at most its dispatch is noted.
   */
  lemma RunningStage(s: State, limits: Limits, step: Step, id: ScanId, k: nat)
    requires id in s.scans && ScanOk(s.scans[id]) && k < |s.scans[id].stages| && s.scans[id].stages[k].status.Running?
    ensures |Effect(s, limits, step, id).stages| == |s.scans[id].stages|
    ensures var scan := s.scans[id];
            var a, b := scan.stages[k], Effect(s, limits, step, id).stages[k];
            var ended := if a.optional then StageStatus.Skipped else StageStatus.Failed;
            if Cancels(scan, step, id) then b == a.(status := StageStatus.Cancelled)
            else if Answers(scan, step, id, k) then
              b == a.(status := match step.outcome case OkResult => StageStatus.Completed case PartialResult => StageStatus.Partial case FailedResult => ended)
            else if Loses(step, id, k, a) then b == a.(status := ended)
            else if step.Dispatched? && step.id == id && step.k == k && a.taskId == Some(step.job) then b == a.(dispatched := true)
            else b == a
  {
    assert InFlight(s.scans[id].stages);
  }

  /** A finished stage never changes, but that a late dispatch may still be noted on it. */
  lemma FinishedStage(s: State, limits: Limits, step: Step, id: ScanId, k: nat)
    requires id in s.scans && ScanOk(s.scans[id]) && k < |s.scans[id].stages| && Finished(s.scans[id].stages[k].status)
    ensures |Effect(s, limits, step, id).stages| == |s.scans[id].stages|
    ensures var a, b := s.scans[id].stages[k], Effect(s, limits, step, id).stages[k];
            b == if step.Dispatched? && step.id == id && step.k == k && a.taskId == Some(step.job) then a.(dispatched := true) else a
  {
    var scan := s.scans[id];
    if LooksForNext(scan, step, id) {
      var m := PrepareShape(scan.stages, step.authorized, step.pool, s.nextJob, 0);
    }
  }

  /** The tenant runs as many scans as its plan allows, two without a plan, or the platform as many as it may. */
  predicate NoPlace(scans: map<ScanId, Scan>, limits: Limits, t: Tenant) {
    || |set i | i in scans && scans[i].status.Running?| >= limits.platform
    || (t in limits.plans && |set i | i in scans && scans[i].status.Running? && scans[i].tenant == t| >= limits.plans[t])
    || (t !in limits.plans && |set i | i in scans && scans[i].status.Running? && scans[i].tenant == t| >= 2)
  }

  lemma NoPlaceMeans(scans: map<ScanId, Scan>, limits: Limits, t: Tenant)
    ensures NoPlace(scans, limits, t) <==> Full(scans, limits, t)
  {
    assert RunningIds(scans) == set i | i in scans && scans[i].status.Running?;
    assert RunningOf(scans, t) == set i | i in scans && scans[i].status.Running? && scans[i].tenant == t;
  }

  /** A new scan waits, and so do all its stages, in the order asked for. */
  lemma CreateExactly(s: State, limits: Limits, t: Tenant, spec: seq<(Engine, bool)>, secret: Option<string>)
    requires ScansOk(s)
    ensures var after := Apply(s, limits, Create(t, spec, secret));
            && after.scans.Keys == s.scans.Keys + {s.nextScan} && s.nextScan !in s.scans
            && (forall i :: i in s.scans ==> after.scans[i] == s.scans[i])
            && var scan := after.scans[s.nextScan];
               && scan.tenant == t && scan.status.Pending? && scan.secret == secret && |scan.stages| == |spec|
               && forall k :: 0 <= k < |spec| ==> scan.stages[k] == Stage(spec[k].0, spec[k].1, StageStatus.Pending, None, None, false)
  {
  }

  /** A result is accepted exactly when it answers a stage. */
  lemma AcceptedExactly(s: State, limits: Limits, step: Step)
    ensures var after := Apply(s, limits, step);
            after.accepted != s.accepted <==>
            step.Result? && step.env.scanId in s.scans && step.env.stage < |s.scans[step.env.scanId].stages|
            && Answers(s.scans[step.env.scanId], step, step.env.scanId, step.env.stage)
  {
  }

  /**
   A scan waits until a start finds its tenant active and a place free; it then runs until it is cancelled or looks
   for a next stage and no pending one is authorized; then it is completed, partial or failed by what its stages
   made of it. Its secret lives exactly as long.
   */
  lemma ScanStatusMoves(s: State, limits: Limits, step: Step, id: ScanId)
    requires id in s.scans && ScanOk(s.scans[id])
    ensures var scan, after := s.scans[id], Effect(s, limits, step, id);
            && after.tenant == scan.tenant
            && if Cancels(scan, step, id) then after.status.Cancelled? && after.secret.None?
               else if step.StartScan? && step.id == id && (scan.status.Pending? || scan.status.Queued?) then
                 after.secret == scan.secret && after.status == if NoPlace(s.scans, limits, scan.tenant) then ScanStatus.Queued else ScanStatus.Running
               else if LooksForNext(scan, step, id) && !AnEarlierMayRun(scan, step.authorized, |scan.stages|) then
                 after.secret.None? && after.status == Verdict(after.stages)
               else after.status == scan.status && after.secret == scan.secret
  {
    var scan := s.scans[id];
    NoPlaceMeans(s.scans, limits, scan.tenant);
    if LooksForNext(scan, step, id) {
      var m := PrepareShape(scan.stages, step.authorized, step.pool, s.nextJob, 0);
      var r := Prepare(scan.stages, step.authorized, step.pool, s.nextJob, 0);
      if m < |scan.stages| {
        assert AnEarlierMayRun(scan, step.authorized, |scan.stages|) && r[m].status.Running?;
      }
    }
  }
}
