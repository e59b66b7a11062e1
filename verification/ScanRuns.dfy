/**
 Scans under duplicated, reordered and lost tasks: each task's locked transaction is one step.

 Starting a scan holds the platform-wide start lock rather than the scan's row lock; that it is
 one step with respect to a cancel is an assumption here, and `SplitStartRevives` shows what it is
 needed for.
 */
module ScanRuns {
  import opened Prelude
  import opened Scans

  /** Tenants without a plan may run two scans at once. */
  datatype Limits = Limits(plans: map<Tenant, nat>, platform: nat) {
    function Of(t: Tenant): nat {
      if t in plans then plans[t] else 2
    }
  }

  /** A result that was accepted, with the stage as it was found. */
  datatype Acceptance = Acceptance(env: Envelope, stage: Stage)

  /** `accepted` is history, which no step reads. */
  datatype State = State(scans: map<ScanId, Scan>, nextScan: ScanId, nextJob: JobId, accepted: seq<Acceptance>)

  const START := State(map[], 0, 0, [])

  datatype Step =
    | Create(tenant: Tenant, stages: seq<(Engine, bool)>, secret: Option<string>)
    | StartScan(id: ScanId, inactive: bool)
    | AdvanceScan(id: ScanId, inactive: bool, authorized: set<nat>, pool: Pool)
    | NotDispatched(id: ScanId, k: nat, job: JobId)
    | Dispatched(id: ScanId, k: nat, job: JobId)
    | StageLost(id: ScanId, k: nat)
    | Result(env: Envelope, outcome: Outcome)
    | Cancel(id: ScanId)
    | CancelTenant(tenant: Tenant)

  function RunningIds(scans: map<ScanId, Scan>): set<ScanId> {
    set i | i in scans && scans[i].status.Running?
  }

  function RunningOf(scans: map<ScanId, Scan>, t: Tenant): set<ScanId> {
    set i | i in scans && scans[i].status.Running? && scans[i].tenant == t
  }

  predicate Full(scans: map<ScanId, Scan>, limits: Limits, t: Tenant) {
    |RunningOf(scans, t)| >= limits.Of(t) || |RunningIds(scans)| >= limits.platform
  }

  function NewStages(spec: seq<(Engine, bool)>): (r: seq<Stage>)
    ensures |r| == |spec|
    ensures forall k :: 0 <= k < |r| ==> r[k] == NewStage(spec[k].0, spec[k].1)
  {
    seq(|spec|, k requires 0 <= k < |spec| => NewStage(spec[k].0, spec[k].1))
  }

  function Find(s: State, id: ScanId): Option<Scan> {
    if id in s.scans then Some(s.scans[id]) else None
  }

  /** What the step makes of one scan; every task leaves alone the scans it does not name. */
  function Effect(s: State, limits: Limits, step: Step, id: ScanId): Scan
    requires id in s.scans
  {
    var scan := s.scans[id];
    match step
    case Create(_, _, _) => scan
    case StartScan(i, inactive) => if i == id then TryStart(scan, inactive, Full(s.scans, limits, scan.tenant)) else scan
    case AdvanceScan(i, inactive, authorized, pool) => if i == id then Advance(scan, inactive, authorized, pool, s.nextJob) else scan
    case NotDispatched(i, k, job) => if i == id && k < |scan.stages| && scan.stages[k].taskId == Some(job) then FailStage(scan, k) else scan
    case Dispatched(i, k, job) => if i == id && k < |scan.stages| then Scans.Mark(scan, k, job) else scan
    case StageLost(i, k) => if i == id && k < |scan.stages| then FailStage(scan, k) else scan
    case Result(env, outcome) => if env.scanId == id && BindingError(Some(scan), env).None? then CompleteStage(scan, env.stage, outcome) else scan
    case Cancel(i) => if i == id && !Over(scan.status) then CancelScan(scan) else scan
    case CancelTenant(t) => if scan.tenant == t && !Over(scan.status) then CancelScan(scan) else scan
  }

  function Apply(s: State, limits: Limits, step: Step): (t: State)
    ensures s.scans.Keys <= t.scans.Keys
  {
    var scans := map i | i in s.scans :: Effect(s, limits, step, i);
    match step
    case Create(t, spec, secret) =>
      s.(scans := scans[s.nextScan := Scan(t, ScanStatus.Pending, NewStages(spec), secret)], nextScan := s.nextScan + 1)
    case AdvanceScan(_, _, _, _) => s.(scans := scans, nextJob := s.nextJob + 1)
    case Result(env, _) =>
      if BindingError(Find(s, env.scanId), env).None?
      then s.(scans := scans, accepted := s.accepted + [Acceptance(env, s.scans[env.scanId].stages[env.stage])])
      else s.(scans := scans)
    case _ => s.(scans := scans)
  }

  function After(s: State, limits: Limits, steps: seq<Step>): State
    decreases |steps|
  {
    if steps == [] then s else After(Apply(s, limits, steps[0]), limits, steps[1..])
  }

  // ------------------------------------------------------------- shape in every run

  ghost predicate ScansOk(s: State) {
    forall i :: i in s.scans ==> i < s.nextScan && ScanOk(s.scans[i])
  }

  lemma EffectOk(s: State, limits: Limits, step: Step, id: ScanId)
    requires id in s.scans && ScanOk(s.scans[id])
    ensures ScanOk(Effect(s, limits, step, id))
  {
    var scan := s.scans[id];
    match step
    case StartScan(_, inactive) => StartOk(scan, inactive, Full(s.scans, limits, scan.tenant));
    case AdvanceScan(_, inactive, authorized, pool) => AdvanceOk(scan, inactive, authorized, pool, s.nextJob);
    case NotDispatched(_, k, job) =>
      if k < |scan.stages| {
        TasksOk(scan, k, job, OkResult);
      }
    case Dispatched(_, k, job) =>
      if k < |scan.stages| {
        TasksOk(scan, k, job, OkResult);
      }
    case StageLost(_, k) =>
      if k < |scan.stages| {
        TasksOk(scan, k, 0, OkResult);
      }
    case Result(env, outcome) =>
      if env.stage < |scan.stages| {
        TasksOk(scan, env.stage, 0, outcome);
      }
    case Cancel(_) => CancelOk(scan);
    case CancelTenant(_) => CancelOk(scan);
    case Create(_, _, _) =>
  }

  lemma StepOk(s: State, limits: Limits, step: Step)
    requires ScansOk(s)
    ensures ScansOk(Apply(s, limits, step))
  {
    forall i | i in s.scans
      ensures ScanOk(Effect(s, limits, step, i))
    {
      EffectOk(s, limits, step, i);
    }
    assert s.nextScan !in s.scans;
  }

  lemma {:induction false} RunOk(s: State, limits: Limits, steps: seq<Step>)
    requires ScansOk(s)
    ensures ScansOk(After(s, limits, steps))
    decreases |steps|
  {
    if steps != [] {
      StepOk(s, limits, steps[0]);
      RunOk(Apply(s, limits, steps[0]), limits, steps[1..]);
    }
  }

  /**
   In every run, every scan's stages read, by position: finished, at most one in flight, pending.
   A scan that is over has only finished stages and no stored sign-in secret; one that has not
   started has only pending stages.
   */
  lemma StagesInOrder(limits: Limits, steps: seq<Step>, id: ScanId)
    requires id in After(START, limits, steps).scans
    ensures var scan := After(START, limits, steps).scans[id];
            && Ordered(scan.stages)
            && (forall i, j :: 0 <= i < j < |scan.stages| ==> !(scan.stages[i].status.Running? && scan.stages[j].status.Running?))
            && (Over(scan.status) ==> scan.secret.None? && forall k :: 0 <= k < |scan.stages| ==> Finished(scan.stages[k].status))
            && (InFlight(scan.stages) ==> scan.status.Running?)
  {
    RunOk(START, limits, steps);
  }

  // --------------------------------------------------------------- a scan that is over

  /** The step records that a job reached the broker, for a stage it is bound to and not yet recorded for. */
  predicate RecordsDispatch(scan: Scan, step: Step, id: ScanId) {
    && step.Dispatched? && step.id == id && step.k < |scan.stages|
    && scan.stages[step.k].taskId == Some(step.job) && !scan.stages[step.k].dispatched
  }

  predicate SameButDispatch(a: Scan, b: Scan) {
    && b == a.(stages := b.stages)
    && |b.stages| == |a.stages|
    && forall k :: 0 <= k < |a.stages| ==> b.stages[k] == a.stages[k].(dispatched := b.stages[k].dispatched)
  }

  /**
   A scan that is over never changes again, in status, stages or secret, but for the time its last
   job is noted to have reached the broker; a step changes it exactly when it is that note.
   */
  lemma OverStays(s: State, limits: Limits, step: Step, id: ScanId)
    requires ScansOk(s) && id in s.scans && Over(s.scans[id].status)
    ensures var t := Apply(s, limits, step);
            && SameButDispatch(s.scans[id], t.scans[id])
            && (t.scans[id] != s.scans[id] <==> RecordsDispatch(s.scans[id], step, id))
  {
    var scan := s.scans[id];
    assert ScanOk(scan);
    assert s.nextScan != id;
    if RecordsDispatch(scan, step, id) {
      assert Effect(s, limits, step, id).stages[step.k] != scan.stages[step.k];
    }
  }

  lemma {:induction false} OverStaysForever(s: State, limits: Limits, steps: seq<Step>, id: ScanId)
    requires ScansOk(s) && id in s.scans && Over(s.scans[id].status)
    ensures id in After(s, limits, steps).scans && SameButDispatch(s.scans[id], After(s, limits, steps).scans[id])
    decreases |steps|
  {
    if steps != [] {
      OverStays(s, limits, steps[0], id);
      StepOk(s, limits, steps[0]);
      OverStaysForever(Apply(s, limits, steps[0]), limits, steps[1..], id);
    }
  }

  /** Cancelling a scan between the publication of a job and its note leaves a cancelled scan that changes once more. */
  lemma CancelledScanStillNoted(s: State, limits: Limits, id: ScanId, k: nat, job: JobId)
    requires id in s.scans && s.scans[id].status.Running? && k < |s.scans[id].stages|
    requires s.scans[id].stages[k].status.Running? && s.scans[id].stages[k].taskId == Some(job) && !s.scans[id].stages[k].dispatched
    ensures var t := Apply(s, limits, Cancel(id));
            && Over(t.scans[id].status)
            && Apply(t, limits, Dispatched(id, k, job)).scans[id] != t.scans[id]
  {
    var t := Apply(s, limits, Cancel(id));
    assert t.scans[id].stages[k] == CancelStage(s.scans[id].stages[k]);
    assert Apply(t, limits, Dispatched(id, k, job)).scans[id].stages[k].dispatched;
  }

  /** One scan with one stage, as it is created. */
  function Fresh(tenant: Tenant, engine: Engine): Scan {
    Scan(tenant, ScanStatus.Pending, [NewStage(engine, false)], None)
  }

  lemma CreateFirst(limits: Limits, tenant: Tenant, engine: Engine)
    ensures Apply(START, limits, Create(tenant, [(engine, false)], None)) == START.(scans := map[0 := Fresh(tenant, engine)], nextScan := 1)
  {
    assert NewStages([(engine, false)]) == [NewStage(engine, false)];
    assert START.scans[0 := Fresh(tenant, engine)] == map[0 := Fresh(tenant, engine)];
  }

  lemma StartFirst(s: State, limits: Limits, tenant: Tenant, engine: Engine)
    requires s.scans == map[0 := Fresh(tenant, engine)] && limits.Of(tenant) >= 1 && limits.platform >= 1
    ensures Apply(s, limits, StartScan(0, false)) == s.(scans := map[0 := Fresh(tenant, engine).(status := ScanStatus.Running)])
  {
    assert RunningOf(s.scans, tenant) == {} && RunningIds(s.scans) == {};
    assert Effect(s, limits, StartScan(0, false), 0) == Fresh(tenant, engine).(status := ScanStatus.Running);
  }

  lemma AdvanceFirst(s: State, limits: Limits, tenant: Tenant, engine: Engine)
    requires s.scans == map[0 := Fresh(tenant, engine).(status := ScanStatus.Running)] && s.nextJob == 0
    ensures var t := Apply(s, limits, AdvanceScan(0, false, {0}, DEFAULT_POOL));
            && 0 in t.scans && t.scans[0].status.Running?
            && t.scans[0].stages == [StartStage(NewStage(engine, false), DEFAULT_POOL, 0)]
  {
    var stages := [NewStage(engine, false)];
    assert !InFlight(stages);
    assert Prepare(stages, {0}, DEFAULT_POOL, 0, 0) == [StartStage(stages[0], DEFAULT_POOL, 0)];
    assert InFlight([StartStage(stages[0], DEFAULT_POOL, 0)]) by {
      assert [StartStage(stages[0], DEFAULT_POOL, 0)][0].status.Running?;
    }
  }

  /** This is reached from the start: a scan is created, started and advanced, cancelled, and only then noted. */
  lemma CancelledScanIsNoted(limits: Limits, tenant: Tenant, engine: Engine)
    requires limits.Of(tenant) >= 1 && limits.platform >= 1
    ensures var steps := [Create(tenant, [(engine, false)], None), StartScan(0, false), AdvanceScan(0, false, {0}, DEFAULT_POOL), Cancel(0)];
            var s := After(START, limits, steps);
            && 0 in s.scans && s.scans[0].status.Cancelled?
            && Apply(s, limits, Dispatched(0, 0, 0)).scans[0] != s.scans[0]
  {
    var steps := [Create(tenant, [(engine, false)], None), StartScan(0, false), AdvanceScan(0, false, {0}, DEFAULT_POOL), Cancel(0)];
    CreateFirst(limits, tenant, engine);
    var s1 := Apply(START, limits, steps[0]);
    StartFirst(s1, limits, tenant, engine);
    var s2 := Apply(s1, limits, steps[1]);
    AdvanceFirst(s2, limits, tenant, engine);
    CancelledScanStillNoted(Apply(s2, limits, steps[2]), limits, 0, 0, 0);
    FourSteps(limits, steps);
  }

  lemma FourSteps(limits: Limits, steps: seq<Step>)
    requires |steps| == 4
    ensures After(START, limits, steps) == Apply(Apply(Apply(Apply(START, limits, steps[0]), limits, steps[1]), limits, steps[2]), limits, steps[3])
  {
    var r1 := steps[1..];
    var r2 := r1[1..];
    var r3 := r2[1..];
    assert r3[1..] == [];
    assert After(Apply(Apply(Apply(START, limits, steps[0]), limits, steps[1]), limits, steps[2]), limits, r3) ==
           Apply(Apply(Apply(Apply(START, limits, steps[0]), limits, steps[1]), limits, steps[2]), limits, steps[3]);
    assert After(Apply(Apply(START, limits, steps[0]), limits, steps[1]), limits, r2) ==
           After(Apply(Apply(Apply(START, limits, steps[0]), limits, steps[1]), limits, steps[2]), limits, r3);
  }

  // -------------------------------------------------------- a start that is not one step

  /**
   A start that reads the scan, lets another transaction commit, and then writes: what it writes is
   decided by what it read.
   */
  function SplitStart(read: Scan, now: Scan, inactive: bool, full: bool): Scan {
    if !read.status.Pending? && !read.status.Queued? then now
    else if inactive then now.(status := ScanStatus.Cancelled, stages := SplitCancel(read.stages, now.stages), secret := None)
    else now.(status := if full then ScanStatus.Queued else ScanStatus.Running)
  }

  function SplitCancel(read: seq<Stage>, now: seq<Stage>): (r: seq<Stage>)
    ensures |r| == |now|
    ensures forall k :: 0 <= k < |now| ==>
              r[k] == if k < |read| && Finished(read[k].status) then now[k] else now[k].(status := StageStatus.Cancelled)
  {
    seq(|now|, k requires 0 <= k < |now| =>
      if k < |read| && Finished(read[k].status) then now[k] else now[k].(status := StageStatus.Cancelled))
  }

  /**
   The split start does what the atomic start would exactly when, by the time it writes, the scan can still
   start or is already what it writes: running, or cancelled before any stage ran. A scan cancelled in between
   is revived, and one that ended in between is rewritten as cancelled.
   */
  lemma SplitStartRevives(read: Scan, now: Scan, inactive: bool, full: bool)
    requires read.status.Pending? || read.status.Queued?
    requires ScanOk(read) && ScanOk(now) && |read.stages| == |now.stages|
    ensures SplitStart(read, now, inactive, full) == TryStart(now, inactive, full) <==>
            || now.status.Pending? || now.status.Queued?
            || (!inactive && !full && now.status.Running?)
            || (inactive && now.status.Cancelled? && forall k :: 0 <= k < |now.stages| ==> now.stages[k].status.Cancelled?)
    ensures Over(now.status) && !inactive ==> !Over(SplitStart(read, now, inactive, full).status)
  {
    var after := SplitStart(read, now, inactive, full);
    if inactive {
      if now.status.Pending? || now.status.Queued? {
        assert after.stages == CancelStages(now.stages);
      } else if now.status.Cancelled? {
        if forall k :: 0 <= k < |now.stages| ==> now.stages[k].status.Cancelled? {
          assert after.stages == now.stages;
        } else {
          var k :| 0 <= k < |now.stages| && !now.stages[k].status.Cancelled?;
          assert after.stages[k] != now.stages[k];
        }
      }
    }
  }

  // ----------------------------------------------------------------- exactly one result

  /** The job a stage was given, if it exists and was given one. */
  function Task(s: State, i: ScanId, k: nat): Option<JobId> {
    if i in s.scans && k < |s.scans[i].stages| then s.scans[i].stages[k].taskId else None
  }

  /** Job numbers come from one counter, and no two stages were given the same. */
  ghost predicate JobsOk(s: State) {
    && (forall i, k :: Task(s, i, k).Some? ==> Task(s, i, k).value < s.nextJob)
    && (forall i, k, j, l :: Task(s, i, k).Some? && Task(s, i, k) == Task(s, j, l) ==> i == j && k == l)
  }

  /** How one stage may move in a step. */
  predicate StageMoves(a: Stage, b: Stage, nextJob: JobId) {
    && b.engine == a.engine
    && (b.taskId == a.taskId || (a.status.Pending? && b.taskId == Some(nextJob)))
    && (!a.status.Pending? ==> b.pool == a.pool && !b.status.Pending?)
    && (Finished(a.status) ==> b.status == a.status)
  }

  lemma AdvanceMoves(scan: Scan, inactive: bool, authorized: set<nat>, pool: Pool, job: JobId)
    requires ScanOk(scan)
    ensures var r := Advance(scan, inactive, authorized, pool, job);
            && r.tenant == scan.tenant && |r.stages| == |scan.stages|
            && (forall k :: 0 <= k < |scan.stages| ==> StageMoves(scan.stages[k], r.stages[k], job))
            && (forall k, l :: 0 <= k < l < |scan.stages| && r.stages[k].taskId == r.stages[l].taskId == Some(job) ==>
                  scan.stages[k].taskId == Some(job) || scan.stages[l].taskId == Some(job))
  {
    if scan.status.Running? && !InFlight(scan.stages) && !inactive {
      var m := PrepareShape(scan.stages, authorized, pool, job, 0);
    }
  }

  lemma EffectMoves(s: State, limits: Limits, step: Step, id: ScanId)
    requires id in s.scans && ScanOk(s.scans[id])
    ensures var r := Effect(s, limits, step, id);
            && r.tenant == s.scans[id].tenant && |r.stages| == |s.scans[id].stages|
            && (forall k :: 0 <= k < |r.stages| ==> StageMoves(s.scans[id].stages[k], r.stages[k], s.nextJob))
            && (forall k :: 0 <= k < |r.stages| && r.stages[k].taskId != s.scans[id].stages[k].taskId ==> step.AdvanceScan? && step.id == id)
  {
    if step.AdvanceScan? && step.id == id {
      AdvanceMoves(s.scans[id], step.inactive, step.authorized, step.pool, s.nextJob);
    }
  }

  lemma TaskMoves(s: State, limits: Limits, step: Step, i: ScanId, k: nat)
    requires ScansOk(s)
    ensures var t := Apply(s, limits, step);
            Task(t, i, k) == Task(s, i, k) || (Task(t, i, k) == Some(s.nextJob) && step.AdvanceScan? && step.id == i && i in s.scans)
  {
    if i in s.scans {
      assert ScanOk(s.scans[i]) && i != s.nextScan;
      EffectMoves(s, limits, step, i);
      var t := Apply(s, limits, step);
      assert t.scans[i] == Effect(s, limits, step, i);
      if k < |s.scans[i].stages| {
        assert StageMoves(s.scans[i].stages[k], t.scans[i].stages[k], s.nextJob);
      }
    }
  }

  lemma OneNewTask(s: State, limits: Limits, step: Step, k: nat, l: nat)
    requires ScansOk(s) && step.AdvanceScan? && step.id in s.scans
    requires forall m :: Task(s, step.id, m) != Some(s.nextJob)
    requires Task(Apply(s, limits, step), step.id, k) == Some(s.nextJob) == Task(Apply(s, limits, step), step.id, l)
    ensures k == l
  {
    var scan := s.scans[step.id];
    AdvanceMoves(scan, step.inactive, step.authorized, step.pool, s.nextJob);
    assert Task(s, step.id, k) != Some(s.nextJob) && Task(s, step.id, l) != Some(s.nextJob);
  }

  lemma StepJobs(s: State, limits: Limits, step: Step)
    requires ScansOk(s) && JobsOk(s)
    ensures JobsOk(Apply(s, limits, step))
  {
    var t := Apply(s, limits, step);
    forall i, k | Task(t, i, k).Some?
      ensures Task(t, i, k).value < t.nextJob
    {
      TaskMoves(s, limits, step, i, k);
    }
    forall i, k, j, l | Task(t, i, k).Some? && Task(t, i, k) == Task(t, j, l)
      ensures i == j && k == l
    {
      TaskMoves(s, limits, step, i, k);
      TaskMoves(s, limits, step, j, l);
      if Task(t, i, k) == Some(s.nextJob) {
        assert Task(s, i, k) != Some(s.nextJob) && Task(s, j, l) != Some(s.nextJob);
        OneNewTask(s, limits, step, k, l);
      }
    }
  }

  /** The accepted result answered the stage it found, and that stage has finished since. */
  ghost predicate AcceptanceOk(a: Acceptance, s: State) {
    && a.env.scanId in s.scans
    && a.env.stage < |s.scans[a.env.scanId].stages|
    && a.stage.status.Running?
    && var st := s.scans[a.env.scanId].stages[a.env.stage];
      && Finished(st.status)
      && st.taskId == a.stage.taskId == Some(a.env.jobId)
      && st.pool == a.stage.pool && st.pool.GetOr(DEFAULT_POOL) == a.env.pool
      && st.engine == a.env.adapter
      && s.scans[a.env.scanId].tenant == a.env.tenant
  }

  ghost predicate AcceptedOk(s: State) {
    && (forall n :: 0 <= n < |s.accepted| ==> AcceptanceOk(s.accepted[n], s))
    && (forall m, n :: 0 <= m < n < |s.accepted| ==>
          (s.accepted[m].env.scanId, s.accepted[m].env.stage) != (s.accepted[n].env.scanId, s.accepted[n].env.stage))
  }

  lemma AcceptanceStays(s: State, limits: Limits, step: Step, a: Acceptance)
    requires ScansOk(s) && AcceptanceOk(a, s)
    ensures AcceptanceOk(a, Apply(s, limits, step))
  {
    var i := a.env.scanId;
    assert ScanOk(s.scans[i]) && i != s.nextScan;
    EffectMoves(s, limits, step, i);
    assert StageOk(s.scans[i].stages[a.env.stage]);
  }

  lemma StepAccepted(s: State, limits: Limits, step: Step)
    requires ScansOk(s) && AcceptedOk(s)
    ensures AcceptedOk(Apply(s, limits, step))
  {
    var t := Apply(s, limits, step);
    forall n | 0 <= n < |s.accepted|
      ensures AcceptanceOk(s.accepted[n], t)
    {
      AcceptanceStays(s, limits, step, s.accepted[n]);
    }
    if step.Result? && BindingError(Find(s, step.env.scanId), step.env).None? {
      var a := Acceptance(step.env, s.scans[step.env.scanId].stages[step.env.stage]);
      assert t.accepted == s.accepted + [a];
      assert AcceptanceOk(a, t);
      forall n | 0 <= n < |s.accepted|
        ensures (s.accepted[n].env.scanId, s.accepted[n].env.stage) != (a.env.scanId, a.env.stage)
      {
        assert AcceptanceOk(s.accepted[n], s);
      }
    }
  }

  lemma {:induction false} RunAccepted(s: State, limits: Limits, steps: seq<Step>)
    requires ScansOk(s) && AcceptedOk(s) && JobsOk(s)
    ensures AcceptedOk(After(s, limits, steps)) && JobsOk(After(s, limits, steps))
    decreases |steps|
  {
    if steps != [] {
      StepOk(s, limits, steps[0]);
      StepAccepted(s, limits, steps[0]);
      StepJobs(s, limits, steps[0]);
      RunAccepted(Apply(s, limits, steps[0]), limits, steps[1..]);
    }
  }

  /**
   Over any run, each stage takes at most one result: it found the stage in flight, it is for the one
   job, pool, tenant and engine the stage was dispatched with, and no job is bound to two stages.
   */
  lemma OneResultPerStage(limits: Limits, steps: seq<Step>)
    ensures var s := After(START, limits, steps);
            && (forall m, n :: 0 <= m < n < |s.accepted| ==>
                  (s.accepted[m].env.scanId, s.accepted[m].env.stage) != (s.accepted[n].env.scanId, s.accepted[n].env.stage))
            && (forall m, n :: 0 <= m < n < |s.accepted| ==> s.accepted[m].env.jobId != s.accepted[n].env.jobId)
            && (forall n :: 0 <= n < |s.accepted| ==> AcceptanceOk(s.accepted[n], s))
  {
    RunAccepted(START, limits, steps);
    var s := After(START, limits, steps);
    forall m, n | 0 <= m < n < |s.accepted|
      ensures s.accepted[m].env.jobId != s.accepted[n].env.jobId
    {
      var a, b := s.accepted[m].env, s.accepted[n].env;
      assert AcceptanceOk(s.accepted[m], s) && AcceptanceOk(s.accepted[n], s);
      assert Task(s, a.scanId, a.stage) == Some(a.jobId) && Task(s, b.scanId, b.stage) == Some(b.jobId);
    }
  }
}
