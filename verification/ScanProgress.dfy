/**
 Scans come to an end, and never more of them run than allowed.
 */
module ScanProgress {
  import opened Prelude
  import opened Scans
  import opened ScanRuns

  // --------------------------------------------------------------------- measures

  function Total(f: Stage -> nat, stages: seq<Stage>): nat {
    if stages == [] then 0 else Total(f, stages[..|stages| - 1]) + f(stages[|stages| - 1])
  }

  /** Two for a pending stage, one for a stage in flight. */
  function StageWork(st: Stage): nat {
    if st.status.Pending? then 2 else if st.status.Running? then 1 else 0
  }

  /** The work left, and one more until the job is noted to be on the broker. */
  function StageWeight(st: Stage): nat {
    StageWork(st) + if st.dispatched then 0 else 1
  }

  function Work(scan: Scan): nat {
    Total(StageWork, scan.stages)
  }

  function Phase(s: ScanStatus): nat {
    if s.Pending? then 3 else if s.Queued? then 2 else if s.Running? then 1 else 0
  }

  function Weight(scan: Scan): nat {
    Total(StageWeight, scan.stages) + Phase(scan.status)
  }

  ghost predicate Lighter(f: Stage -> nat, a: seq<Stage>, b: seq<Stage>) {
    |a| == |b| && forall k :: 0 <= k < |a| ==> f(b[k]) <= f(a[k])
  }

  lemma {:induction false} TotalFalls(f: Stage -> nat, a: seq<Stage>, b: seq<Stage>)
    requires Lighter(f, a, b)
    ensures Total(f, b) <= Total(f, a)
    ensures (exists k :: 0 <= k < |a| && f(b[k]) < f(a[k])) ==> Total(f, b) < Total(f, a)
    decreases |a|
  {
    if a != [] {
      var n := |a| - 1;
      TotalFalls(f, a[..n], b[..n]);
      if k :| 0 <= k < |a| && f(b[k]) < f(a[k]) {
        if k < n {
          assert f(b[..n][k]) < f(a[..n][k]);
        }
      }
    }
  }

  lemma {:induction false} TotalZero(f: Stage -> nat, a: seq<Stage>)
    ensures (forall k :: 0 <= k < |a| ==> f(a[k]) == 0) <==> Total(f, a) == 0
    decreases |a|
  {
    if a != [] {
      var n := |a| - 1;
      TotalZero(f, a[..n]);
      assert forall k :: 0 <= k < n ==> a[..n][k] == a[k];
    }
  }

  lemma {:induction false} TotalUniform(f: Stage -> nat, a: seq<Stage>, c: nat)
    requires forall k :: 0 <= k < |a| ==> f(a[k]) == c
    ensures Total(f, a) == c * |a|
    decreases |a|
  {
    if a != [] {
      var n := |a| - 1;
      TotalUniform(f, a[..n], c);
      assert c * |a| == c * n + c;
    }
  }

  // ------------------------------------------------------------- every task makes progress

  /** Each stage gets lighter or stays as it is. */
  predicate StageProgress(a: Stage, b: Stage) {
    b == a || StageWork(b) < StageWork(a) || (b == a.(dispatched := true) && !a.dispatched)
  }

  ghost predicate StagesProgress(a: seq<Stage>, b: seq<Stage>) {
    |a| == |b| && forall k :: 0 <= k < |a| ==> StageProgress(a[k], b[k]) && (a[k].dispatched ==> b[k].dispatched)
  }

  lemma AdvanceProgress(scan: Scan, inactive: bool, authorized: set<nat>, pool: Pool, job: JobId)
    requires ScanOk(scan)
    ensures var r := Advance(scan, inactive, authorized, pool, job);
            && StagesProgress(scan.stages, r.stages)
            && (r.status == scan.status || Over(r.status))
            && (forall k :: 0 <= k < |scan.stages| && r.stages[k] != scan.stages[k] ==> StageWork(r.stages[k]) < StageWork(scan.stages[k]))
  {
    if scan.status.Running? && !InFlight(scan.stages) && !inactive {
      var m := PrepareShape(scan.stages, authorized, pool, job, 0);
      assert forall k :: 0 <= k < |scan.stages| ==> StageOk(scan.stages[k]);
    }
  }

  lemma EffectProgress(s: State, limits: Limits, step: Step, id: ScanId)
    requires id in s.scans && ScanOk(s.scans[id])
    ensures var a, b := s.scans[id], Effect(s, limits, step, id);
            && StagesProgress(a.stages, b.stages)
            && (b.status == a.status || Phase(b.status) < Phase(a.status))
            && (!step.Dispatched? ==>
                  forall k :: 0 <= k < |a.stages| && b.stages[k] != a.stages[k] ==> StageWork(b.stages[k]) < StageWork(a.stages[k]))
            && (b.stages == a.stages && b.status == a.status ==> b == a)
  {
    var scan := s.scans[id];
    if step.AdvanceScan? && step.id == id {
      AdvanceProgress(scan, step.inactive, step.authorized, step.pool, s.nextJob);
    }
  }

  lemma ProgressTakesWeight(a: seq<Stage>, b: seq<Stage>)
    requires StagesProgress(a, b)
    ensures Total(StageWeight, b) <= Total(StageWeight, a)
    ensures b != a ==> Total(StageWeight, b) < Total(StageWeight, a)
  {
    forall k | 0 <= k < |a|
      ensures StageWeight(b[k]) <= StageWeight(a[k]) && (b[k] != a[k] ==> StageWeight(b[k]) < StageWeight(a[k]))
    {
      assert StageProgress(a[k], b[k]);
    }
    TotalFalls(StageWeight, a, b);
    if b != a {
      var k :| 0 <= k < |a| && b[k] != a[k];
      assert StageWeight(b[k]) < StageWeight(a[k]);
    }
  }

  lemma ProgressTakesWork(a: seq<Stage>, b: seq<Stage>)
    requires StagesProgress(a, b)
    requires forall k :: 0 <= k < |a| && b[k] != a[k] ==> StageWork(b[k]) < StageWork(a[k])
    ensures b != a ==> Total(StageWork, b) < Total(StageWork, a)
  {
    assert Lighter(StageWork, a, b);
    TotalFalls(StageWork, a, b);
    if b != a {
      var k :| 0 <= k < |a| && b[k] != a[k];
      assert StageWork(b[k]) < StageWork(a[k]);
    }
  }

  /** Whatever changes a scan takes weight off it. */
  lemma EveryChangeCounts(s: State, limits: Limits, step: Step, id: ScanId)
    requires ScansOk(s) && id in s.scans
    ensures var t := Apply(s, limits, step);
            t.scans[id] == s.scans[id] || Weight(t.scans[id]) < Weight(s.scans[id])
  {
    assert ScanOk(s.scans[id]) && id != s.nextScan;
    EffectProgress(s, limits, step, id);
    ProgressTakesWeight(s.scans[id].stages, Effect(s, limits, step, id).stages);
  }

  predicate IsPipelineTask(step: Step) {
    !step.Create? && !step.StartScan? && !step.Dispatched?
  }

  /**
   Every pipeline task leaves the scan as it was, strictly decreases 2 x (pending stages) + (stages in
   flight), or brings the scan to its end with nothing left.
   */
  lemma PipelineTaskDecreases(s: State, limits: Limits, step: Step, id: ScanId)
    requires ScansOk(s) && id in s.scans && IsPipelineTask(step)
    ensures var a, b := s.scans[id], Apply(s, limits, step).scans[id];
            b == a || Work(b) < Work(a) || (Over(b.status) && Work(b) == 0)
  {
    assert ScanOk(s.scans[id]) && id != s.nextScan;
    var b := Effect(s, limits, step, id);
    EffectProgress(s, limits, step, id);
    EffectOk(s, limits, step, id);
    ProgressTakesWork(s.scans[id].stages, b.stages);
    TotalZero(StageWork, b.stages);
  }

  // ------------------------------------------------------------------- a linear bound

  /** How many of the steps changed the scan. */
  function Changes(s: State, limits: Limits, steps: seq<Step>, id: ScanId): nat
    decreases |steps|
  {
    if steps == [] then 0
    else
      var t := Apply(s, limits, steps[0]);
      (if id in s.scans && t.scans[id] != s.scans[id] then 1 else 0) + Changes(t, limits, steps[1..], id)
  }

  lemma {:induction false} ChangesBounded(s: State, limits: Limits, steps: seq<Step>, id: ScanId)
    requires ScansOk(s) && id in s.scans
    ensures id in After(s, limits, steps).scans
    ensures Changes(s, limits, steps, id) + Weight(After(s, limits, steps).scans[id]) <= Weight(s.scans[id])
    decreases |steps|
  {
    if steps != [] {
      EveryChangeCounts(s, limits, steps[0], id);
      StepOk(s, limits, steps[0]);
      ChangesBounded(Apply(s, limits, steps[0]), limits, steps[1..], id);
    }
  }

  /** A new scan of n stages changes at most 3n + 3 times, whatever mix of tasks, results, losses and retries follows. */
  lemma LinearlyManyChanges(s: State, limits: Limits, tenant: Tenant, spec: seq<(Engine, bool)>, secret: Option<string>, steps: seq<Step>)
    requires ScansOk(s)
    ensures var t := Apply(s, limits, Create(tenant, spec, secret));
            s.nextScan in t.scans && Changes(t, limits, steps, s.nextScan) <= 3 * |spec| + 3
  {
    var t := Apply(s, limits, Create(tenant, spec, secret));
    StepOk(s, limits, Create(tenant, spec, secret));
    TotalUniform(StageWeight, t.scans[s.nextScan].stages, 3);
    ChangesBounded(t, limits, steps, s.nextScan);
  }

  // ------------------------------------------------------------------ no scan gets stuck

  /**
   What the watchdog delivers for a running scan: the loss of a stage in flight, or another advance if none is,
   whatever that advance then finds of the tenant, of what scope authorizes and of the pool.
   */
  predicate IsNudge(scan: Scan, id: ScanId, step: Step) {
    match step
    case StageLost(i, k) => i == id && k < |scan.stages| && scan.stages[k].status.Running?
    case AdvanceScan(i, _, _, _) => i == id && !InFlight(scan.stages)
    case _ => false
  }

  /** Any step leaves a running scan running with no more work than before, or brings it to its end. */
  lemma RunningGoesOn(s: State, limits: Limits, step: Step, id: ScanId)
    requires ScansOk(s) && id in s.scans && s.scans[id].status.Running?
    ensures var b := Apply(s, limits, step).scans[id];
            Over(b.status) || (b.status.Running? && Work(b) <= Work(s.scans[id]))
  {
    assert ScanOk(s.scans[id]) && id != s.nextScan;
    var a, b := s.scans[id], Effect(s, limits, step, id);
    EffectProgress(s, limits, step, id);
    forall k | 0 <= k < |a.stages|
      ensures StageWork(b.stages[k]) <= StageWork(a.stages[k])
    {
      assert StageProgress(a.stages[k], b.stages[k]);
    }
    TotalFalls(StageWork, a.stages, b.stages);
  }

  /** A nudge takes work off a running scan, or ends it. */
  lemma NudgeMoves(s: State, limits: Limits, id: ScanId, step: Step)
    requires ScansOk(s) && id in s.scans && s.scans[id].status.Running? && IsNudge(s.scans[id], id, step)
    ensures var b := Apply(s, limits, step).scans[id];
            Over(b.status) || (b.status.Running? && Work(b) < Work(s.scans[id]))
  {
    var scan := s.scans[id];
    var t := Apply(s, limits, step);
    assert ScanOk(scan) && id != s.nextScan;
    RunningGoesOn(s, limits, step, id);
    PipelineTaskDecreases(s, limits, step, id);
    if step.AdvanceScan? && !step.inactive {
      var m := PrepareShape(scan.stages, step.authorized, step.pool, s.nextJob, 0);
      var r := Prepare(scan.stages, step.authorized, step.pool, s.nextJob, 0);
      if m < |scan.stages| {
        assert r[m].status.Running? && scan.stages[m].status.Pending?;
      } else {
        assert !InFlight(r);
      }
    }
  }

  /** How many of the steps nudge the scan when they come. */
  function Nudges(s: State, limits: Limits, steps: seq<Step>, id: ScanId): nat
    decreases |steps|
  {
    if steps == [] then 0
    else
      (if id in s.scans && s.scans[id].status.Running? && IsNudge(s.scans[id], id, steps[0]) then 1 else 0)
      + Nudges(Apply(s, limits, steps[0]), limits, steps[1..], id)
  }

  lemma {:induction false} NudgesTakeWork(s: State, limits: Limits, steps: seq<Step>, id: ScanId)
    requires ScansOk(s) && id in s.scans && s.scans[id].status.Running?
    ensures id in After(s, limits, steps).scans
    ensures var b := After(s, limits, steps).scans[id];
            Over(b.status) || (b.status.Running? && Nudges(s, limits, steps, id) + Work(b) <= Work(s.scans[id]))
    decreases |steps|
  {
    if steps != [] {
      var t := Apply(s, limits, steps[0]);
      StepOk(s, limits, steps[0]);
      RunningGoesOn(s, limits, steps[0], id);
      if IsNudge(s.scans[id], id, steps[0]) {
        NudgeMoves(s, limits, id, steps[0]);
      }
      if Over(t.scans[id].status) {
        OverStaysForever(t, limits, steps[1..], id);
      } else {
        NudgesTakeWork(t, limits, steps[1..], id);
      }
    }
  }

  /**
   No scan gets stuck: whatever else happens in between, and whatever is authorized each time, a running scan
   is over once the watchdog has nudged it more often than it has work, that is twice its pending stages and
   one for the stage in flight.
   */
  lemma WatchdogFinishes(s: State, limits: Limits, steps: seq<Step>, id: ScanId)
    requires ScansOk(s) && id in s.scans && s.scans[id].status.Running?
    requires Nudges(s, limits, steps, id) > Work(s.scans[id])
    ensures id in After(s, limits, steps).scans && Over(After(s, limits, steps).scans[id].status)
  {
    NudgesTakeWork(s, limits, steps, id);
  }

  /** A running scan can always be nudged. */
  lemma NudgeExists(s: State, id: ScanId, inactive: bool, authorized: set<nat>, pool: Pool) returns (step: Step)
    requires id in s.scans && s.scans[id].status.Running?
    ensures IsNudge(s.scans[id], id, step)
    ensures step.StageLost? || step == AdvanceScan(id, inactive, authorized, pool)
  {
    var stages := s.scans[id].stages;
    if k :| 0 <= k < |stages| && stages[k].status.Running? {
      step := StageLost(id, k);
    } else {
      step := AdvanceScan(id, inactive, authorized, pool);
    }
  }

  // --------------------------------------------------------------------------- limits

  ghost predicate WithinLimits(scans: map<ScanId, Scan>, limits: Limits) {
    && |RunningIds(scans)| <= limits.platform
    && forall t: Tenant :: |RunningOf(scans, t)| <= limits.Of(t)
  }

  /** Only a start makes a scan running, and only when neither limit is reached. */
  lemma RunsOnlyByStart(s: State, limits: Limits, step: Step, id: ScanId)
    requires ScansOk(s) && id in Apply(s, limits, step).scans
    requires Apply(s, limits, step).scans[id].status.Running? && !(id in s.scans && s.scans[id].status.Running?)
    ensures step.StartScan? && step.id == id && id in s.scans && !Full(s.scans, limits, s.scans[id].tenant)
  {
    if id in s.scans && id != s.nextScan {
      EffectProgress(s, limits, step, id);
    }
  }

  lemma TenantsStay(s: State, limits: Limits, step: Step, id: ScanId)
    requires ScansOk(s) && id in s.scans
    ensures Apply(s, limits, step).scans[id].tenant == s.scans[id].tenant
  {
    assert id != s.nextScan;
  }

  lemma StepWithinLimits(s: State, limits: Limits, step: Step)
    requires ScansOk(s) && WithinLimits(s.scans, limits)
    ensures WithinLimits(Apply(s, limits, step).scans, limits)
  {
    var t := Apply(s, limits, step);
    var extra := if step.StartScan? && step.id in s.scans && !Full(s.scans, limits, s.scans[step.id].tenant) then {step.id} else {};
    forall i | i in RunningIds(t.scans)
      ensures i in RunningIds(s.scans) + extra
    {
      if i !in RunningIds(s.scans) {
        RunsOnlyByStart(s, limits, step, i);
      }
    }
    SubsetSize(RunningIds(t.scans), RunningIds(s.scans) + extra);
    forall tenant: Tenant
      ensures |RunningOf(t.scans, tenant)| <= limits.Of(tenant)
    {
      var mine := if step.StartScan? && step.id in extra && s.scans[step.id].tenant == tenant then extra else {};
      forall i | i in RunningOf(t.scans, tenant)
        ensures i in RunningOf(s.scans, tenant) + mine
      {
        if !(i in s.scans && s.scans[i].status.Running?) {
          RunsOnlyByStart(s, limits, step, i);
        }
        TenantsStay(s, limits, step, i);
      }
      SubsetSize(RunningOf(t.scans, tenant), RunningOf(s.scans, tenant) + mine);
    }
  }

  lemma {:induction false} RunWithinLimits(s: State, limits: Limits, steps: seq<Step>)
    requires ScansOk(s) && WithinLimits(s.scans, limits)
    ensures WithinLimits(After(s, limits, steps).scans, limits)
    decreases |steps|
  {
    if steps != [] {
      StepOk(s, limits, steps[0]);
      StepWithinLimits(s, limits, steps[0]);
      RunWithinLimits(Apply(s, limits, steps[0]), limits, steps[1..]);
    }
  }

  /** No interleaving of starts, advances, results, failures and cancels exceeds a tenant's limit or the platform's. */
  lemma NeverTooManyScans(limits: Limits, steps: seq<Step>)
    ensures var scans := After(START, limits, steps).scans;
            && |RunningIds(scans)| <= limits.platform
            && forall t: Tenant :: |RunningOf(scans, t)| <= limits.Of(t)
  {
    assert RunningIds(START.scans) == {};
    assert forall t: Tenant :: RunningOf(START.scans, t) == {};
    RunWithinLimits(START, limits, steps);
  }
}
