/**
 The deployment-wide limit: at every instant of every run, no more capture jobs execute on
 scanners than the policy allows.
 */
module CaptureSafety {
  import opened Prelude
  import opened Captures
  import opened CaptureSystem
  import opened CaptureBinding

  // -------------------------------------------------------------------- invariant

  predicate ExecutionOk(x: Execution, broker: set<Job>, claims: map<JobId, Time>, now: Time) {
    && x.job in broker
    && x.since <= x.job.notAfter
    && now <= x.since + HardLimit(x.job.timeout)
    && x.job.id in claims
    && claims[x.job.id] > x.since + HardLimit(x.job.timeout)
  }

  ghost predicate Executions(executing: map<nat, Execution>, next: nat, broker: set<Job>, claims: map<JobId, Time>, now: Time) {
    && (forall e :: e in executing ==> e < next && ExecutionOk(executing[e], broker, claims, now))
    && (forall e, f :: e in executing && f in executing && executing[e].job == executing[f].job ==> e == f)
  }

  ghost predicate ExecutionsOk(s: State) {
    Executions(s.executing, s.nextExecution, s.broker, s.claims, s.now)
  }

  /** A slot is not given up while its job may run, or while a dispatcher is about to build its job. */
  ghost predicate SlotsOk(s: State) {
    && (forall j :: j in s.jobs && MayRun(s, j) ==> j.capture in s.rows && s.rows[j.capture].slotUntil.Some?)
    && (forall i :: i in s.dispatching && s.dispatching[i].Reserved? && i in s.rows && s.rows[i].status.Running? ==>
          s.rows[i].slotUntil.Some?)
  }

  predicate CountOk(s: State, g: Config) {
    |OccupiedIds(s.rows, s.now)| <= g.policy.maxConcurrent
  }

  ghost predicate Inv(s: State, g: Config) {
    Structure(s, g) && ExecutionsOk(s) && SlotsOk(s) && CountOk(s, g)
  }

  // ---------------------------------------------------------------- what it gives

  /** A job that may run still occupies its slot: the latest start plus the hard limit lies before `slot_until`. */
  lemma MayRunOccupies(s: State, g: Config, j: Job)
    requires RowsOk(s, g) && JobsOk(s, g) && ExecutionsOk(s) && SlotsOk(s) && ClaimsOk(s)
    requires j in s.jobs && MayRun(s, j)
    ensures j.capture in s.rows && Occupied(s.rows[j.capture], s.now)
  {
    var c := s.rows[j.capture];
    assert JobOk(j, s.rows, g, s.now, s.nextId, s.nextJob);
    assert RowOk(c, g, s.now, s.nextJob);
    if exists e :: e in s.executing && s.executing[e].job == j {
      var e :| e in s.executing && s.executing[e].job == j;
      assert s.now <= j.notAfter + HardLimit(j.timeout);
    }
  }

  /** Executions stand on distinct occupied rows. */
  lemma ExecutingWithinLimit(s: State, g: Config)
    requires Inv(s, g)
    ensures |s.executing| <= |OccupiedIds(s.rows, s.now)| <= g.policy.maxConcurrent
  {
    var row := map e | e in s.executing :: s.executing[e].job.capture;
    forall e | e in s.executing
      ensures row[e] in OccupiedIds(s.rows, s.now)
    {
      MayRunOccupies(s, g, s.executing[e].job);
    }
    forall e, f | e in s.executing && f in s.executing && row[e] == row[f]
      ensures e == f
    {
      assert s.executing[e].job in s.jobs && s.executing[f].job in s.jobs;
    }
    InjectionSize(s.executing.Keys, OccupiedIds(s.rows, s.now), row);
    assert |s.executing.Keys| == |s.executing|;
  }

  // ---------------------------------------------------------------------- counting

  /** What every step but a reservation shares: rows only lose occupancy. */
  lemma CountFalls(s: State, t: State, g: Config)
    requires CountOk(s, g) && s.now <= t.now
    requires forall i :: i in t.rows && Occupied(t.rows[i], t.now) ==> i in s.rows && Occupied(s.rows[i], t.now)
    ensures CountOk(t, g)
  {
    SubsetSize(OccupiedIds(t.rows, t.now), OccupiedIds(s.rows, s.now));
  }

  lemma CalmCount(s: State, t: State, g: Config)
    requires Calm(s, t) && CountOk(s, g)
    ensures CountOk(t, g)
  {
    forall i | i in t.rows && Occupied(t.rows[i], t.now)
      ensures i in s.rows && Occupied(s.rows[i], t.now)
    {
      if i in s.rows {
        assert RowCalm(s.rows[i], t.rows[i]);
      }
    }
    CountFalls(s, t, g);
  }

  /** Slots are counted at the time the process read, which may be stale: that only counts more of them. */
  lemma ReserveCount(s: State, t: State, g: Config, clock: Time, picked: seq<CaptureId>)
    requires TookSlots(s, t, g, clock, picked) && RowsOk(s, g)
    requires |OccupiedIds(s.rows, clock)| + |picked| <= g.policy.maxConcurrent
    ensures CountOk(t, g)
  {
    var before := OccupiedIds(s.rows, clock);
    forall i | i in OccupiedIds(t.rows, t.now)
      ensures i in before + Elements(picked)
    {
      TookSlotsAt(s, t, g, clock, picked, i);
    }
    SubsetSize(OccupiedIds(t.rows, t.now), before + Elements(picked));
    DistinctSize(picked);
  }

  // ------------------------------------------------------------------------- slots

  /** A slot is given up only when no job for it may run and no dispatcher is about to build one. */
  ghost predicate SlotsKept(s: State, t: State) {
    forall i :: i in s.rows && s.rows[i].slotUntil.Some? && !(i in t.rows && t.rows[i].slotUntil == s.rows[i].slotUntil) ==>
      && (forall j :: j in s.jobs && j.capture == i ==> !MayRun(s, j))
      && !(i in t.rows && t.rows[i].status.Running? && i in t.dispatching && t.dispatching[i].Reserved?)
  }

  lemma CalmSlots(s: State, t: State)
    requires Calm(s, t) && SlotsOk(s) && SlotsKept(s, t)
    ensures SlotsOk(t)
  {
    forall j | j in t.jobs && MayRun(t, j)
      ensures j.capture in t.rows && t.rows[j.capture].slotUntil.Some?
    {
      assert MayRun(s, j);
    }
    forall i | i in t.dispatching && i in t.rows && t.dispatching[i].Reserved? && t.rows[i].status.Running?
      ensures t.rows[i].slotUntil.Some?
    {
      if i in s.rows {
        assert RowCalm(s.rows[i], t.rows[i]);
      }
    }
  }

  /** One row may lose its slot once no job for it may run. */
  lemma OneRowSlots(s: State, t: State, id: CaptureId)
    requires id in s.rows && id in t.rows && t.rows == s.rows[id := t.rows[id]]
    requires t.rows[id].slotUntil != s.rows[id].slotUntil ==>
               && (forall j :: j in s.jobs && j.capture == id ==> !MayRun(s, j))
               && (id in t.dispatching ==> !t.dispatching[id].Reserved?)
    ensures SlotsKept(s, t)
  {
  }

  /** Nobody can run a job the broker did not take. */
  lemma UnsentNeverRuns(s: State, g: Config, id: CaptureId)
    requires JobsOk(s, g) && DispatchOk(s) && ExecutionsOk(s)
    requires id in s.dispatching && s.dispatching[id].Unsent?
    ensures forall j :: j in s.jobs && j.capture == id ==> !MayRun(s, j)
  {
    forall j | j in s.jobs && j.capture == id
      ensures !MayRun(s, j)
    {
      assert j == s.dispatching[id].job;
      assert j !in s.broker;
    }
  }

  lemma ReportedJobIsOver(s: State, g: Config, env: Envelope, i: CaptureId)
    requires RowsOk(s, g) && JobsOk(s, g) && DispatchOk(s) && Honest(s, env)
    requires i in s.rows && s.rows[i].taskId == Some(env.jobId)
    ensures forall j :: j in s.jobs && j.capture == i ==> !MayRun(s, j)
    ensures i in s.dispatching ==> !s.dispatching[i].Reserved?
  {
    assert RowOk(s.rows[i], g, s.now, s.nextJob);
    var job :| job in s.jobs && job.id == env.jobId;
    assert job.capture == i;
    assert forall j :: j in s.jobs && j.capture == i ==> j == job;
  }

  lemma ReceiveSlots(s: State, g: Config, env: Envelope, outcome: Status)
    requires RowsOk(s, g) && JobsOk(s, g) && DispatchOk(s) && Honest(s, env)
    ensures SlotsKept(s, ApplyReceive(s, env, outcome))
  {
    var t := ApplyReceive(s, env, outcome);
    var i := env.stageId;
    if i in s.rows {
      if s.rows[i].taskId == Some(env.jobId) {
        ReportedJobIsOver(s, g, env, i);
      }
      assert t.rows == s.rows[i := t.rows[i]];
      OneRowSlots(s, t, i);
    }
  }

  lemma DeleteSlots(s: State, g: Config, id: CaptureId)
    requires RowsOk(s, g) && JobsOk(s, g) && ExecutionsOk(s) && SlotsOk(s) && ClaimsOk(s)
    requires id in s.rows && SlotPassed(s.rows[id], s.now)
    ensures SlotsKept(s, s.(rows := s.rows - {id}))
  {
    forall j | j in s.jobs && j.capture == id
      ensures !MayRun(s, j)
    {
      if MayRun(s, j) {
        MayRunOccupies(s, g, j);
      }
    }
  }

  lemma MarkSlots(s: State, id: CaptureId)
    requires id in s.dispatching && (s.dispatching[id].Sent? || s.dispatching[id].Unsent?)
    requires s.dispatching[id].Unsent? ==> forall j :: j in s.jobs && j.capture == id ==> !MayRun(s, j)
    ensures SlotsKept(s, ApplyMark(s, id))
  {
    if id in s.rows {
      OneRowSlots(s, ApplyMark(s, id), id);
    }
  }

  /** A refused launch frees a slot for which no job was ever built. */
  lemma RefusalSlots(s: State, g: Config, id: CaptureId, pool: Pool, refused: bool)
    requires DispatchOk(s) && Enabled(s, g, LaunchCapture(id, pool, refused)) && IsCalm(s, LaunchCapture(id, pool, refused))
    ensures SlotsKept(s, ApplyLaunch(s, g, id, pool, refused))
  {
    if id in s.rows {
      assert PhaseOk(id, s.dispatching[id], s.jobs, s.broker);
      OneRowSlots(s, ApplyLaunch(s, g, id, pool, refused), id);
    }
  }

  lemma SameSlots(s: State, t: State)
    requires forall i :: i in s.rows ==> i in t.rows && t.rows[i].slotUntil == s.rows[i].slotUntil
    ensures SlotsKept(s, t)
  {
  }

  lemma RequestSlots(s: State, g: Config, tenant: Tenant, a: Endpoint, enabled: bool, authorized: bool)
    requires RowsOk(s, g)
    ensures SlotsKept(s, ApplyRequest(s, g, tenant, a, enabled, authorized))
  {
    assert s.nextId !in s.rows;
    SameSlots(s, ApplyRequest(s, g, tenant, a, enabled, authorized));
  }

  lemma CancelSlots(s: State, id: CaptureId)
    requires id in s.rows
    ensures SlotsKept(s, ApplyCancel(s, id))
  {
    SameSlots(s, ApplyCancel(s, id));
  }

  lemma CalmStepSlots(s: State, g: Config, step: Step)
    requires Inv(s, g) && Enabled(s, g, step) && Disciplined(s, step) && IsCalm(s, step)
    ensures SlotsKept(s, Apply(s, g, step))
  {
    match step
    case LaunchCapture(id, pool, refused) => RefusalSlots(s, g, id, pool, refused);
    case Mark(id) =>
      if s.dispatching[id].Unsent? {
        UnsentNeverRuns(s, g, id);
      }
      MarkSlots(s, id);
    case ReceiveResult(env, outcome) => ReceiveSlots(s, g, env, outcome);
    case Delete(id) => DeleteSlots(s, g, id);
    case Request(tenant, a, enabled, authorized) => RequestSlots(s, g, tenant, a, enabled, authorized);
    case CancelCapture(id) => CancelSlots(s, id);
    case CrashDispatcher(id) => SameSlots(s, s.(dispatching := s.dispatching - {id}));
    case PurgeUsage(tenant) => SameSlots(s, ApplyPurge(s, tenant));
  }

  lemma CalmKeeps(s: State, t: State, g: Config)
    requires Inv(s, g) && Calm(s, t) && SlotsKept(s, t)
    ensures Inv(t, g)
  {
    CalmStructure(s, t, g);
    CalmCount(s, t, g);
    CalmSlots(s, t);
  }

  lemma LaunchSlots(s: State, g: Config, id: CaptureId, pool: Pool)
    requires Structure(s, g) && SlotsOk(s)
    requires Enabled(s, g, LaunchCapture(id, pool, false)) && id in s.rows && LaunchBuildsJob(s.rows[id], false)
    ensures SlotsOk(ApplyLaunch(s, g, id, pool, false))
  {
    NewJobIsNew(s, g, id, pool);
    var t := ApplyLaunch(s, g, id, pool, false);
    var job := JobFor(s, g, id, pool);
    forall j | j in t.jobs && MayRun(t, j)
      ensures j.capture in t.rows && t.rows[j.capture].slotUntil.Some?
    {
      if j != job {
        assert MayRun(s, j);
      }
    }
  }

  lemma PublishSlots(s: State, g: Config, id: CaptureId, ok: bool)
    requires Structure(s, g) && SlotsOk(s) && Enabled(s, g, Publish(id, ok))
    ensures SlotsOk(ApplyPublish(s, id, ok))
  {
    var t := ApplyPublish(s, id, ok);
    assert PhaseOk(id, s.dispatching[id], s.jobs, s.broker);
    forall j | j in t.jobs && MayRun(t, j)
      ensures MayRun(s, j)
    {
    }
  }

  lemma ReserveSlots(s: State, t: State, g: Config, clock: Time, picked: seq<CaptureId>)
    requires TookSlots(s, t, g, clock, picked) && RowsOk(s, g) && QueuedOk(s) && SlotsOk(s)
    ensures SlotsOk(t)
  {
    forall j | j in t.jobs && MayRun(t, j)
      ensures j.capture in t.rows && t.rows[j.capture].slotUntil.Some?
    {
      if j.capture in t.dispatching && t.dispatching[j.capture] == Built(j) {
        assert j.capture !in picked;
      }
      assert MayRun(s, j);
      TookSlotsAt(s, t, g, clock, picked, j.capture);
    }
    forall i | i in t.dispatching && i in t.rows && t.dispatching[i].Reserved? && t.rows[i].status.Running?
      ensures t.rows[i].slotUntil.Some?
    {
      TookSlotsAt(s, t, g, clock, picked, i);
    }
  }

  // ------------------------------------------------------------------- executions

  /** A second execution of a job cannot begin: its claim outlives the first. */
  lemma ClaimFree(s: State, job: Job)
    requires ClaimsOk(s) && ExecutionsOk(s) && job in s.broker && !ClaimHeld(s, job)
    ensures forall e :: e in s.executing ==> s.executing[e].job != job
    ensures job.id in s.claims ==> s.now > job.notAfter
  {
    forall e | e in s.executing
      ensures s.executing[e].job != job
    {
      assert ExecutionOk(s.executing[e], s.broker, s.claims, s.now);
    }
  }

  lemma NewExecution(executing: map<nat, Execution>, next: nat, broker: set<Job>, claims: map<JobId, Time>, now: Time, job: Job)
    requires Executions(executing, next, broker, claims, now) && forall e :: e in executing ==> executing[e].job != job
    requires ExecutionOk(Execution(job, now), broker, claims, now)
    ensures Executions(executing[next := Execution(job, now)], next + 1, broker, claims, now)
  {
    var after := executing[next := Execution(job, now)];
    forall e | e in after
      ensures e < next + 1 && ExecutionOk(after[e], broker, claims, now)
    {
      assert e in executing ==> ExecutionOk(executing[e], broker, claims, now);
    }
  }

  lemma NewClaim(s: State, job: Job, until: Time)
    requires ClaimsOk(s) && ExecutionsOk(s) && UniqueJobs(s.jobs) && job in s.broker && !ClaimHeld(s, job)
    ensures Executions(s.executing, s.nextExecution, s.broker, s.claims[job.id := until], s.now)
  {
    ClaimFree(s, job);
    forall e | e in s.executing
      ensures ExecutionOk(s.executing[e], s.broker, s.claims[job.id := until], s.now)
    {
      assert ExecutionOk(s.executing[e], s.broker, s.claims, s.now);
      assert s.executing[e].job.id != job.id;
    }
  }

  lemma DeliverExecutions(s: State, g: Config, job: Job)
    requires ValidConfig(g) && ClaimsOk(s) && ExecutionsOk(s) && UniqueJobs(s.jobs) && job in s.broker
    requires job.timeout == JobTimeout(g.policy)
    ensures ExecutionsOk(ApplyDeliver(s, g, job))
  {
    if ClaimHeld(s, job) {
    } else {
      var until := s.now + job.timeout + g.visibility;
      NewClaim(s, job, until);
      if s.now <= job.notAfter {
        ClaimFree(s, job);
        NewExecution(s.executing, s.nextExecution, s.broker, s.claims[job.id := until], s.now, job);
      }
    }
  }

  lemma DeliveredMayRun(s: State, g: Config, job: Job, j: Job)
    requires ClaimsOk(s) && ExecutionsOk(s) && job in s.broker && j in s.jobs
    requires MayRun(ApplyDeliver(s, g, job), j)
    ensures MayRun(s, j)
  {
    var t := ApplyDeliver(s, g, job);
    if !ClaimHeld(s, job) {
      ClaimFree(s, job);
      if exists e :: e in t.executing && t.executing[e].job == j {
        var e :| e in t.executing && t.executing[e].job == j;
        if e != s.nextExecution {
          assert e in s.executing && s.executing[e].job == j;
        }
      }
    }
  }

  /** A step that changes no row, job or dispatcher, and lets no further job run, keeps the slots. */
  lemma SameRowsSlots(s: State, t: State)
    requires SlotsOk(s) && t.rows == s.rows && t.jobs == s.jobs && t.dispatching == s.dispatching
    requires forall j :: j in s.jobs && MayRun(t, j) ==> MayRun(s, j)
    ensures SlotsOk(t)
  {
  }

  lemma DeliverSlots(s: State, g: Config, job: Job)
    requires ClaimsOk(s) && ExecutionsOk(s) && SlotsOk(s) && job in s.broker
    ensures SlotsOk(ApplyDeliver(s, g, job))
  {
    var t := ApplyDeliver(s, g, job);
    DeliverTouches(s, g, job);
    forall j | j in s.jobs && MayRun(t, j)
      ensures MayRun(s, j)
    {
      DeliveredMayRun(s, g, job, j);
    }
    SameRowsSlots(s, t);
  }

  // ----------------------------------------------------------------- every run

  lemma DeliverKeeps(s: State, g: Config, job: Job)
    requires ValidConfig(g) && Inv(s, g) && Enabled(s, g, Deliver(job))
    ensures Inv(ApplyDeliver(s, g, job), g)
  {
    assert JobOk(job, s.rows, g, s.now, s.nextId, s.nextJob);
    DeliverStructure(s, g, job);
    DeliverExecutions(s, g, job);
    DeliverSlots(s, g, job);
  }

  lemma TickKeeps(s: State, g: Config, to: Time)
    requires Inv(s, g) && Enabled(s, g, Tick(to))
    ensures Inv(Apply(s, g, Tick(to)), g)
  {
    var t := Apply(s, g, Tick(to));
    TickStructure(s, g, to);
    CountFalls(s, t, g);
    forall j | j in t.jobs && MayRun(t, j)
      ensures MayRun(s, j)
    {
    }
  }

  lemma EndedExecutions(s: State, e: nat)
    requires ExecutionsOk(s)
    ensures ExecutionsOk(s.(executing := s.executing - {e}))
  {
  }

  lemma EndedMayRun(s: State, e: nat, j: Job)
    requires MayRun(s.(executing := s.executing - {e}), j)
    ensures MayRun(s, j)
  {
  }

  lemma EndKeeps(s: State, g: Config, e: nat)
    requires Inv(s, g) && Enabled(s, g, End(e))
    ensures Inv(Apply(s, g, End(e)), g)
  {
    var t := Apply(s, g, End(e));
    SameRestStructure(s, t, g);
    EndedExecutions(s, e);
    forall j | j in s.jobs && MayRun(t, j)
      ensures MayRun(s, j)
    {
      EndedMayRun(s, e, j);
    }
    SameRowsSlots(s, t);
  }

  lemma ReserveKeeps(s: State, g: Config, clock: Time, watchLocked: set<CaptureId>, queueLocked: set<CaptureId>, queue: seq<CaptureId>)
    requires Inv(s, g) && CanReserve(s, g, clock, watchLocked, queueLocked, queue)
    ensures Inv(ApplyReserve(s, g, clock, watchLocked, queue), g)
  {
    var rows := Watched(s, g, clock, watchLocked);
    var free := FreeSlots(rows, g.policy, clock);
    var w := s.(rows := rows);
    ReserveStructure(s, g, clock, watchLocked, queueLocked, queue);
    WatchdogCalm(s, g, clock, watchLocked);
    CalmKeeps(s, w, g);
    if free > 0 {
      var t := ApplyReserve(s, g, clock, watchLocked, queue);
      var picked := Picked(rows, queue, free);
      ReserveTakesSlots(s, g, clock, watchLocked, queueLocked, queue);
      ReserveSlots(w, t, g, clock, picked);
      ReserveCount(w, t, g, clock, picked);
    }
  }

  lemma CalmStepKeeps(s: State, g: Config, step: Step)
    requires Inv(s, g) && Enabled(s, g, step) && Disciplined(s, step) && IsCalm(s, step)
    ensures Inv(Apply(s, g, step), g)
  {
    CalmSteps(s, g, step);
    CalmStepSlots(s, g, step);
    CalmKeeps(s, Apply(s, g, step), g);
  }

  lemma LaunchKeeps(s: State, g: Config, id: CaptureId, pool: Pool)
    requires Inv(s, g)
    requires Enabled(s, g, LaunchCapture(id, pool, false)) && id in s.rows && LaunchBuildsJob(s.rows[id], false)
    ensures Inv(ApplyLaunch(s, g, id, pool, false), g)
  {
    LaunchStructure(s, g, id, pool);
    LaunchSlots(s, g, id, pool);
    CountFalls(s, ApplyLaunch(s, g, id, pool, false), g);
  }

  lemma PublishKeeps(s: State, g: Config, id: CaptureId, ok: bool)
    requires Inv(s, g) && Enabled(s, g, Publish(id, ok))
    ensures Inv(ApplyPublish(s, id, ok), g)
  {
    PublishStructure(s, g, id, ok);
    PublishSlots(s, g, id, ok);
  }

  lemma StepKeeps(s: State, g: Config, step: Step)
    requires ValidConfig(g) && Inv(s, g) && Enabled(s, g, step) && Disciplined(s, step)
    ensures Inv(Apply(s, g, step), g)
  {
    if IsCalm(s, step) {
      CalmStepKeeps(s, g, step);
    } else {
      match step
      case Tick(to) => TickKeeps(s, g, to);
      case Reserve(clock, watchLocked, queueLocked, queue) => ReserveKeeps(s, g, clock, watchLocked, queueLocked, queue);
      case LaunchCapture(id, pool, refused) => LaunchKeeps(s, g, id, pool);
      case Publish(id, ok) => PublishKeeps(s, g, id, ok);
      case Deliver(job) => DeliverKeeps(s, g, job);
      case End(e) => EndKeeps(s, g, e);
    }
  }

  lemma {:induction false} RunKeeps(s: State, g: Config, steps: seq<Step>)
    requires ValidConfig(g) && Inv(s, g) && IsDisciplinedRun(s, g, steps)
    ensures IsRun(s, g, steps) && Inv(After(s, g, steps), g)
    decreases |steps|
  {
    if steps != [] {
      StepKeeps(s, g, steps[0]);
      RunKeeps(Apply(s, g, steps[0]), g, steps[1..]);
    }
  }

  /**
   At every instant of every disciplined run, whatever cancels, watchdog passes, late or repeated
   results, redeliveries and crashes it contains, at most `maxConcurrent` capture jobs execute,
   each of them on an occupied slot of its own.
   */
  lemma AtMostMaxConcurrent(g: Config, steps: seq<Step>)
    requires ValidConfig(g) && IsDisciplinedRun(START, g, steps)
    ensures IsRun(START, g, steps)
    ensures var s := After(START, g, steps);
            && |s.executing| <= |OccupiedIds(s.rows, s.now)| <= g.policy.maxConcurrent
            && forall e :: e in s.executing ==>
                 s.executing[e].job.capture in s.rows && Occupied(s.rows[s.executing[e].job.capture], s.now)
  {
    RunKeeps(START, g, steps);
    var s := After(START, g, steps);
    ExecutingWithinLimit(s, g);
    forall e | e in s.executing
      ensures s.executing[e].job.capture in s.rows && Occupied(s.rows[s.executing[e].job.capture], s.now)
    {
      assert ExecutionOk(s.executing[e], s.broker, s.claims, s.now);
      MayRunOccupies(s, g, s.executing[e].job);
    }
  }
}
