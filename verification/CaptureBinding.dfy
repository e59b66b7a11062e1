/**
 What ties captures, dispatchers and jobs together in every run, with no assumption about
 scanners or deletions: a capture is reserved once, its job is built once from its row, and it
 takes at most one result, which answers that job.
 */
module CaptureBinding {
  import opened Prelude
  import opened Captures
  import opened CaptureSystem

  // -------------------------------------------------------------------- structure

  predicate RowOk(c: Capture, g: Config, now: Time, nextJob: JobId) {
    && (c.status.Queued? ==> c.taskId.None? && c.slotUntil.None?)
    && (c.status.Running? ==> c.taskId.Some?)
    && (c.taskId.Some? <==> c.startedAt.Some?)
    && (c.taskId.Some? ==> c.taskId.value < nextJob && c.startedAt.value <= now)
    && (c.slotUntil.Some? ==> c.startedAt.Some? && c.slotUntil.value == c.startedAt.value + SlotHold(g.policy))
  }

  ghost predicate TableOk(rows: Table, g: Config, now: Time, nextId: CaptureId, nextJob: JobId) {
    && (forall i :: i in rows ==> i < nextId && RowOk(rows[i], g, now, nextJob))
    && (forall i, j :: i in rows && j in rows && rows[i].taskId.Some? && rows[i].taskId == rows[j].taskId ==> i == j)
  }

  ghost predicate RowsOk(s: State, g: Config) {
    TableOk(s.rows, g, s.now, s.nextId, s.nextJob)
  }

  /** A job still agrees with the row it was built from, for as long as that row exists. */
  predicate JobOk(j: Job, rows: Table, g: Config, now: Time, nextId: CaptureId, nextJob: JobId) {
    && j.id < nextJob
    && j.capture < nextId
    && j.timeout == JobTimeout(g.policy)
    && j.notAfter <= now + START_WINDOW
    && (j.capture in rows ==>
          && rows[j.capture].taskId == Some(j.id)
          && rows[j.capture].startedAt == Some(j.notAfter - START_WINDOW)
          && rows[j.capture].pool == Some(j.pool)
          && rows[j.capture].tenant == j.tenant)
  }

  ghost predicate BoundJobs(jobs: set<Job>, rows: Table, g: Config, now: Time, nextId: CaptureId, nextJob: JobId) {
    && (forall j :: j in jobs ==> JobOk(j, rows, g, now, nextId, nextJob))
    && (forall j, i :: j in jobs && i in rows && rows[i].taskId == Some(j.id) ==> i == j.capture)
  }

  ghost predicate UniqueJobs(jobs: set<Job>) {
    forall j, k :: j in jobs && k in jobs && (j.id == k.id || j.capture == k.capture) ==> j == k
  }

  ghost predicate JobsOk(s: State, g: Config) {
    BoundJobs(s.jobs, s.rows, g, s.now, s.nextId, s.nextJob) && UniqueJobs(s.jobs)
  }

  ghost predicate PhaseOk(i: CaptureId, phase: Phase, jobs: set<Job>, broker: set<Job>) {
    && (phase.Reserved? ==> forall j :: j in jobs ==> j.capture != i)
    && (!phase.Reserved? ==> phase.job in jobs && phase.job.capture == i)
    && (phase.Built? || phase.Unsent? ==> phase.job !in broker)
  }

  ghost predicate PhasesOk(dispatching: map<CaptureId, Phase>, nextId: CaptureId, jobs: set<Job>, broker: set<Job>) {
    forall i :: i in dispatching ==> i < nextId && PhaseOk(i, dispatching[i], jobs, broker)
  }

  ghost predicate DispatchOk(s: State) {
    PhasesOk(s.dispatching, s.nextId, s.jobs, s.broker)
  }

  /** A row without a job has no dispatcher at work on it, and none ever built it a job. */
  ghost predicate NeverLaunched(rows: Table, dispatching: map<CaptureId, Phase>, jobs: set<Job>) {
    forall i :: i in rows && rows[i].taskId.None? ==> i !in dispatching && forall j :: j in jobs ==> j.capture != i
  }

  ghost predicate QueuedOk(s: State) {
    NeverLaunched(s.rows, s.dispatching, s.jobs)
  }

  predicate Issued(broker: set<Job>, id: JobId) {
    exists j :: j in broker && j.id == id
  }

  ghost predicate ClaimsCover(claims: map<JobId, Time>, broker: set<Job>) {
    && (forall x :: x in claims ==> Issued(broker, x))
    && (forall j :: j in broker && j.id in claims ==> claims[j.id] > j.notAfter)
  }

  ghost predicate ClaimsOk(s: State) {
    s.broker <= s.jobs && ClaimsCover(s.claims, s.broker)
  }

  ghost predicate Structure(s: State, g: Config) {
    RowsOk(s, g) && JobsOk(s, g) && DispatchOk(s) && QueuedOk(s) && ClaimsOk(s)
  }

  // ------------------------------------------------------------------ calm steps

  /** The row keeps what binds it to its job, becomes active only by staying so, and gains no slot. */
  predicate RowCalm(c: Capture, d: Capture) {
    && d.tenant == c.tenant && d.startedAt == c.startedAt && d.taskId == c.taskId && d.pool == c.pool
    && (Active(d.status) ==> d.status == c.status)
    && (d.slotUntil == c.slotUntil || d.slotUntil.None?)
  }

  predicate IsNewRow(c: Capture) {
    c.status.Queued? && c.startedAt.None? && c.taskId.None? && c.slotUntil.None?
  }

  /** A step that at most adds queued rows, ends rows, frees slots, drops rows or lets dispatchers go. */
  ghost predicate Calm(s: State, t: State) {
    && s.nextId <= t.nextId
    && t == s.(rows := t.rows, nextId := t.nextId, dispatching := t.dispatching, usage := t.usage, accepted := t.accepted,
               created := t.created, refunded := t.refunded)
    && (forall i :: i in t.dispatching ==> i in s.dispatching && t.dispatching[i] == s.dispatching[i])
    && (forall i :: i in t.rows && i in s.rows ==> RowCalm(s.rows[i], t.rows[i]))
    && (forall i :: i in t.rows && i !in s.rows ==> s.nextId <= i < t.nextId && IsNewRow(t.rows[i]))
  }

  lemma CalmRows(s: State, t: State, g: Config)
    requires Calm(s, t) && RowsOk(s, g)
    ensures RowsOk(t, g)
  {
    forall i | i in t.rows && i in s.rows
      ensures i < t.nextId && RowOk(t.rows[i], g, t.now, t.nextJob)
    {
      assert RowCalm(s.rows[i], t.rows[i]) && RowOk(s.rows[i], g, s.now, s.nextJob);
    }
  }

  lemma CalmJobs(s: State, t: State, g: Config)
    requires Calm(s, t) && JobsOk(s, g)
    ensures JobsOk(t, g)
  {
    forall j | j in t.jobs
      ensures JobOk(j, t.rows, g, t.now, t.nextId, t.nextJob)
    {
      assert JobOk(j, s.rows, g, s.now, s.nextId, s.nextJob);
    }
  }

  lemma CalmQueued(s: State, t: State, g: Config)
    requires Calm(s, t) && DispatchOk(s) && QueuedOk(s) && JobsOk(s, g)
    ensures QueuedOk(t)
  {
    forall i | i in t.rows && t.rows[i].taskId.None?
      ensures i !in t.dispatching && forall j :: j in t.jobs ==> j.capture != i
    {
      if i in s.rows {
        assert RowCalm(s.rows[i], t.rows[i]);
      }
      assert forall j :: j in s.jobs ==> JobOk(j, s.rows, g, s.now, s.nextId, s.nextJob);
    }
  }

  lemma CalmStructure(s: State, t: State, g: Config)
    requires Calm(s, t) && Structure(s, g)
    ensures Structure(t, g)
  {
    CalmRows(s, t, g);
    CalmJobs(s, t, g);
    CalmQueued(s, t, g);
  }

  /** One row changes calmly. */
  lemma OneRowCalm(s: State, t: State, id: CaptureId, d: Capture)
    requires id in s.rows && RowCalm(s.rows[id], d)
    requires t == s.(rows := s.rows[id := d], dispatching := t.dispatching, accepted := t.accepted)
    requires forall i :: i in t.dispatching ==> i in s.dispatching && t.dispatching[i] == s.dispatching[i]
    ensures Calm(s, t)
  {
  }

  /** The steps that at most add queued rows, end rows, free slots, drop rows or let dispatchers go. */
  predicate IsCalm(s: State, step: Step) {
    match step
    case Request(_, _, _, _) => true
    case CancelCapture(_) => true
    case LaunchCapture(id, _, refused) => id in s.rows ==> !LaunchBuildsJob(s.rows[id], refused)
    case Mark(_) => true
    case CrashDispatcher(_) => true
    case ReceiveResult(_, _) => true
    case Delete(_) => true
    case PurgeUsage(_) => true
    case _ => false
  }

  lemma CreateCalm(s: State, g: Config, tenant: Tenant, a: Endpoint)
    requires RowsOk(s, g)
    ensures Calm(s, CreateCapture(s, tenant, a))
  {
    assert s.nextId !in s.rows;
  }

  lemma ReceiveCalm(s: State, g: Config, env: Envelope, outcome: Status)
    requires Enabled(s, g, ReceiveResult(env, outcome))
    ensures Calm(s, ApplyReceive(s, env, outcome))
  {
    var t := ApplyReceive(s, env, outcome);
    var i := env.stageId;
    if i in s.rows {
      assert t.rows == s.rows[i := t.rows[i]];
      OneRowCalm(s, t, i, t.rows[i]);
    }
  }

  lemma RequestCalm(s: State, g: Config, tenant: Tenant, a: Endpoint, enabled: bool, authorized: bool)
    requires RowsOk(s, g)
    ensures Calm(s, ApplyRequest(s, g, tenant, a, enabled, authorized))
  {
    CreateCalm(s, g, tenant, a);
  }

  lemma CancelCalm(s: State, id: CaptureId)
    requires id in s.rows
    ensures Calm(s, ApplyCancel(s, id))
  {
  }

  lemma LaunchCalm(s: State, g: Config, id: CaptureId, pool: Pool, refused: bool)
    requires id in s.rows ==> !LaunchBuildsJob(s.rows[id], refused)
    ensures Calm(s, ApplyLaunch(s, g, id, pool, refused))
  {
    if id in s.rows {
      OneRowCalm(s, ApplyLaunch(s, g, id, pool, refused), id, Launch(s.rows[id], pool, refused));
    }
  }

  lemma MarkCalm(s: State, id: CaptureId)
    requires id in s.dispatching && (s.dispatching[id].Sent? || s.dispatching[id].Unsent?)
    ensures Calm(s, ApplyMark(s, id))
  {
    if id in s.rows {
      OneRowCalm(s, ApplyMark(s, id), id, ApplyMark(s, id).rows[id]);
    }
  }

  lemma LetGoCalm(s: State, id: CaptureId)
    ensures Calm(s, s.(dispatching := s.dispatching - {id})) && Calm(s, s.(rows := s.rows - {id}))
  {
  }

  lemma CalmSteps(s: State, g: Config, step: Step)
    requires RowsOk(s, g) && Enabled(s, g, step) && IsCalm(s, step)
    ensures Calm(s, Apply(s, g, step))
  {
    match step
    case Request(tenant, a, enabled, authorized) => RequestCalm(s, g, tenant, a, enabled, authorized);
    case CancelCapture(id) => CancelCalm(s, id);
    case LaunchCapture(id, pool, refused) => LaunchCalm(s, g, id, pool, refused);
    case Mark(id) => MarkCalm(s, id);
    case ReceiveResult(env, outcome) => ReceiveCalm(s, g, env, outcome);
    case CrashDispatcher(id) => LetGoCalm(s, id);
    case Delete(id) => LetGoCalm(s, id);
    case PurgeUsage(_) =>
  }

  // ------------------------------------------------------------ the other steps

  lemma TickStructure(s: State, g: Config, to: Time)
    requires Structure(s, g) && s.now <= to
    ensures Structure(s.(now := to), g)
  {
    var t := s.(now := to);
    assert forall i :: i in s.rows && RowOk(s.rows[i], g, s.now, s.nextJob) ==> RowOk(t.rows[i], g, t.now, t.nextJob);
    forall j | j in t.jobs
      ensures JobOk(j, t.rows, g, t.now, t.nextId, t.nextJob)
    {
      assert JobOk(j, s.rows, g, s.now, s.nextId, s.nextJob);
    }
  }

  lemma NewJobIsNew(s: State, g: Config, id: CaptureId, pool: Pool)
    requires RowsOk(s, g) && JobsOk(s, g) && DispatchOk(s) && ClaimsOk(s)
    requires id in s.rows && s.rows[id].taskId.Some?
    requires id in s.dispatching && s.dispatching[id].Reserved?
    ensures var job := JobFor(s, g, id, pool);
            && (forall j :: j in s.jobs ==> j.id != job.id && j.capture != id)
            && job.id !in s.claims
            && job !in s.broker
  {
  }

  lemma LaunchJobs(s: State, g: Config, id: CaptureId, pool: Pool)
    requires RowsOk(s, g) && JobsOk(s, g) && DispatchOk(s) && ClaimsOk(s)
    requires Enabled(s, g, LaunchCapture(id, pool, false)) && id in s.rows && LaunchBuildsJob(s.rows[id], false)
    ensures var t := ApplyLaunch(s, g, id, pool, false); RowsOk(t, g) && JobsOk(t, g)
  {
    NewJobIsNew(s, g, id, pool);
    var t := ApplyLaunch(s, g, id, pool, false);
    var job := JobFor(s, g, id, pool);
    forall i | i in t.rows
      ensures i < t.nextId && RowOk(t.rows[i], g, t.now, t.nextJob)
    {
      assert RowOk(s.rows[i], g, s.now, s.nextJob);
    }
    forall j | j in t.jobs
      ensures JobOk(j, t.rows, g, t.now, t.nextId, t.nextJob)
    {
      if j in s.jobs {
        assert JobOk(j, s.rows, g, s.now, s.nextId, s.nextJob);
      } else {
        assert j == job && RowOk(s.rows[id], g, s.now, s.nextJob);
      }
    }
  }

  lemma LaunchStructure(s: State, g: Config, id: CaptureId, pool: Pool)
    requires Structure(s, g)
    requires Enabled(s, g, LaunchCapture(id, pool, false)) && id in s.rows && LaunchBuildsJob(s.rows[id], false)
    ensures Structure(ApplyLaunch(s, g, id, pool, false), g)
  {
    LaunchJobs(s, g, id, pool);
    NewJobIsNew(s, g, id, pool);
  }

  lemma PublishDispatch(s: State, g: Config, id: CaptureId, ok: bool)
    requires DispatchOk(s) && UniqueJobs(s.jobs) && Enabled(s, g, Publish(id, ok))
    ensures DispatchOk(ApplyPublish(s, id, ok))
  {
    var t := ApplyPublish(s, id, ok);
    forall i | i in t.dispatching
      ensures PhaseOk(i, t.dispatching[i], t.jobs, t.broker)
    {
      assert PhaseOk(i, s.dispatching[i], s.jobs, s.broker);
    }
  }

  lemma PublishClaims(s: State, id: CaptureId, ok: bool)
    requires ClaimsOk(s) && UniqueJobs(s.jobs)
    requires id in s.dispatching && s.dispatching[id].Built? && s.dispatching[id].job in s.jobs
    ensures ClaimsOk(ApplyPublish(s, id, ok))
  {
    var t := ApplyPublish(s, id, ok);
    forall x | x in t.claims
      ensures Issued(t.broker, x)
    {
      assert Issued(s.broker, x);
      var j :| j in s.broker && j.id == x;
      assert j in t.broker;
    }
    forall j | j in t.broker && j.id in t.claims
      ensures t.claims[j.id] > j.notAfter
    {
      assert Issued(s.broker, j.id);
      var k :| k in s.broker && k.id == j.id;
      assert j == k;
    }
  }

  lemma PublishStructure(s: State, g: Config, id: CaptureId, ok: bool)
    requires Structure(s, g) && Enabled(s, g, Publish(id, ok))
    ensures Structure(ApplyPublish(s, id, ok), g)
  {
    assert PhaseOk(id, s.dispatching[id], s.jobs, s.broker);
    PublishDispatch(s, g, id, ok);
    PublishClaims(s, id, ok);
  }

  lemma DeliverClaims(s: State, g: Config, job: Job)
    requires ValidConfig(g) && ClaimsOk(s) && UniqueJobs(s.jobs) && job in s.broker
    requires job.timeout == JobTimeout(g.policy) && job.notAfter <= s.now + START_WINDOW
    ensures ClaimsOk(ApplyDeliver(s, g, job))
  {
    var t := ApplyDeliver(s, g, job);
    assert Issued(s.broker, job.id);
    assert JobTimeout(g.policy) >= 60;
    if !ClaimHeld(s, job) {
      assert t.claims == s.claims[job.id := s.now + job.timeout + g.visibility];
      forall j | j in s.broker && j.id in t.claims
        ensures t.claims[j.id] > j.notAfter
      {
        if j.id == job.id {
          assert j in s.jobs && job in s.jobs;
        }
      }
    }
  }

  lemma DeliverTouches(s: State, g: Config, job: Job)
    ensures var t := ApplyDeliver(s, g, job); t == s.(claims := t.claims, executing := t.executing, nextExecution := t.nextExecution)
  {
    if ClaimHeld(s, job) {
    } else if s.now > job.notAfter {
    } else {
    }
  }

  lemma SameRestStructure(s: State, t: State, g: Config)
    requires Structure(s, g) && ClaimsOk(t)
    requires t == s.(claims := t.claims, executing := t.executing, nextExecution := t.nextExecution)
    ensures Structure(t, g)
  {
  }

  lemma DeliverStructure(s: State, g: Config, job: Job)
    requires ValidConfig(g) && Structure(s, g) && job in s.broker
    ensures Structure(ApplyDeliver(s, g, job), g)
  {
    assert JobOk(job, s.rows, g, s.now, s.nextId, s.nextJob);
    DeliverClaims(s, g, job);
    DeliverTouches(s, g, job);
    SameRestStructure(s, ApplyDeliver(s, g, job), g);
  }

  /** `t` is `s` after its picked queued rows took a slot each; `clock` is when the reserving process read the time. */
  ghost predicate TookSlots(s: State, t: State, g: Config, clock: Time, picked: seq<CaptureId>) {
    && Distinct(picked)
    && clock <= s.now
    && (forall i :: i in picked ==> i in s.rows && s.rows[i].status.Queued?)
    && t == s.(rows := TakeSlots(s.rows, g.policy, clock, picked, s.nextJob), nextJob := s.nextJob + |picked|,
               dispatching := s.dispatching + map i | i in picked :: Reserved)
  }

  lemma TookSlotsAt(s: State, t: State, g: Config, clock: Time, picked: seq<CaptureId>, i: CaptureId)
    requires TookSlots(s, t, g, clock, picked) && RowsOk(s, g) && i in t.rows
    ensures i in s.rows
    ensures i !in picked ==> t.rows[i] == s.rows[i]
    ensures i in picked ==> exists k :: 0 <= k < |picked| && picked[k] == i && t.rows[i] == TakeSlot(s.rows[i], g.policy, clock, s.nextJob + k)
  {
    TakeSlotsAt(s.rows, g.policy, clock, picked, s.nextJob);
  }

  lemma ReserveRows(s: State, t: State, g: Config, clock: Time, picked: seq<CaptureId>)
    requires TookSlots(s, t, g, clock, picked) && RowsOk(s, g)
    ensures RowsOk(t, g)
  {
    TakeSlotsAt(s.rows, g.policy, clock, picked, s.nextJob);
    forall i | i in t.rows
      ensures i < t.nextId && RowOk(t.rows[i], g, t.now, t.nextJob)
    {
      assert RowOk(s.rows[i], g, s.now, s.nextJob);
      TookSlotsAt(s, t, g, clock, picked, i);
    }
    forall i, j | i in t.rows && j in t.rows && t.rows[i].taskId.Some? && t.rows[i].taskId == t.rows[j].taskId
      ensures i == j
    {
      TookSlotsAt(s, t, g, clock, picked, i);
      TookSlotsAt(s, t, g, clock, picked, j);
      assert RowOk(s.rows[i], g, s.now, s.nextJob) && RowOk(s.rows[j], g, s.now, s.nextJob);
    }
  }

  lemma ReserveJobs(s: State, t: State, g: Config, clock: Time, picked: seq<CaptureId>)
    requires TookSlots(s, t, g, clock, picked) && RowsOk(s, g) && JobsOk(s, g) && QueuedOk(s)
    ensures JobsOk(t, g)
  {
    forall j | j in t.jobs
      ensures JobOk(j, t.rows, g, t.now, t.nextId, t.nextJob)
    {
      assert JobOk(j, s.rows, g, s.now, s.nextId, s.nextJob);
      if j.capture in t.rows {
        TookSlotsAt(s, t, g, clock, picked, j.capture);
        assert RowOk(s.rows[j.capture], g, s.now, s.nextJob);
      }
    }
    forall j, i | j in t.jobs && i in t.rows && t.rows[i].taskId == Some(j.id)
      ensures i == j.capture
    {
      TookSlotsAt(s, t, g, clock, picked, i);
      assert JobOk(j, s.rows, g, s.now, s.nextId, s.nextJob);
    }
  }

  lemma ReserveDispatch(s: State, t: State, g: Config, clock: Time, picked: seq<CaptureId>)
    requires TookSlots(s, t, g, clock, picked) && RowsOk(s, g) && DispatchOk(s) && QueuedOk(s)
    ensures DispatchOk(t) && QueuedOk(t)
  {
    forall i | i in t.dispatching
      ensures i < t.nextId && PhaseOk(i, t.dispatching[i], t.jobs, t.broker)
    {
      if i in picked {
        assert RowOk(s.rows[i], g, s.now, s.nextJob);
        TookSlotsAt(s, t, g, clock, picked, i);
      } else {
        assert PhaseOk(i, s.dispatching[i], s.jobs, s.broker);
        if i in t.rows {
          TookSlotsAt(s, t, g, clock, picked, i);
        }
      }
    }
    forall i | i in t.rows && t.rows[i].taskId.None?
      ensures i !in t.dispatching && forall j :: j in t.jobs ==> j.capture != i
    {
      TookSlotsAt(s, t, g, clock, picked, i);
    }
  }

  lemma PickedAreQueued(rows: Table, locked: set<CaptureId>, free: nat, queue: seq<CaptureId>)
    requires IsQueueHead(rows, locked, free * 5, queue)
    ensures var picked := Picked(rows, queue, free);
            Distinct(picked) && |picked| <= free && forall i :: i in picked ==> i in rows && rows[i].status.Queued?
  {
    PickedFairly(rows, queue, free);
  }

  lemma ReserveTakesSlots(s: State, g: Config, clock: Time, watchLocked: set<CaptureId>, queueLocked: set<CaptureId>, queue: seq<CaptureId>)
    requires CanReserve(s, g, clock, watchLocked, queueLocked, queue)
    requires FreeSlots(Watched(s, g, clock, watchLocked), g.policy, clock) > 0
    ensures var rows := Watched(s, g, clock, watchLocked);
            var picked := Picked(rows, queue, FreeSlots(rows, g.policy, clock));
            && TookSlots(s.(rows := rows), ApplyReserve(s, g, clock, watchLocked, queue), g, clock, picked)
            && |OccupiedIds(rows, clock)| + |picked| <= g.policy.maxConcurrent
  {
    var rows := Watched(s, g, clock, watchLocked);
    PickedAreQueued(rows, queueLocked, FreeSlots(rows, g.policy, clock), queue);
  }

  lemma WatchdogCalm(s: State, g: Config, clock: Time, locked: set<CaptureId>)
    ensures Calm(s, s.(rows := Watched(s, g, clock, locked)))
  {
  }

  lemma ReserveStructure(s: State, g: Config, clock: Time, watchLocked: set<CaptureId>, queueLocked: set<CaptureId>, queue: seq<CaptureId>)
    requires Structure(s, g) && CanReserve(s, g, clock, watchLocked, queueLocked, queue)
    ensures Structure(ApplyReserve(s, g, clock, watchLocked, queue), g)
  {
    var rows := Watched(s, g, clock, watchLocked);
    var free := FreeSlots(rows, g.policy, clock);
    var w := s.(rows := rows);
    WatchdogCalm(s, g, clock, watchLocked);
    CalmStructure(s, w, g);
    if free > 0 {
      var t := ApplyReserve(s, g, clock, watchLocked, queue);
      var picked := Picked(rows, queue, free);
      ReserveTakesSlots(s, g, clock, watchLocked, queueLocked, queue);
      ReserveRows(w, t, g, clock, picked);
      ReserveJobs(w, t, g, clock, picked);
      ReserveDispatch(w, t, g, clock, picked);
    }
  }

  lemma StepStructure(s: State, g: Config, step: Step)
    requires ValidConfig(g) && Structure(s, g) && Enabled(s, g, step)
    ensures Structure(Apply(s, g, step), g)
  {
    if IsCalm(s, step) {
      CalmSteps(s, g, step);
      CalmStructure(s, Apply(s, g, step), g);
    } else {
      match step
      case Tick(to) => TickStructure(s, g, to);
      case Reserve(clock, watchLocked, queueLocked, queue) => ReserveStructure(s, g, clock, watchLocked, queueLocked, queue);
      case LaunchCapture(id, pool, refused) => LaunchStructure(s, g, id, pool);
      case Publish(id, ok) => PublishStructure(s, g, id, ok);
      case Deliver(job) => DeliverStructure(s, g, job);
      case End(e) => SameRestStructure(s, Apply(s, g, step), g);
    }
  }

  // ------------------------------------------------------------ at most one result

  /** The result answered the running row it found, and answers whatever job the capture was given. */
  ghost predicate AcceptanceOk(a: Acceptance, s: State) {
    && a.env.stageId < s.nextId
    && BindingError(Some(a.row), a.env).None?
    && (a.env.stageId in s.rows ==> !Active(s.rows[a.env.stageId].status))
    && (forall j :: j in s.jobs && j.capture == a.env.stageId ==> j.id == a.env.jobId && j.pool == a.env.pool && j.tenant == a.env.tenant)
  }

  ghost predicate AcceptedOk(s: State) {
    && (forall k :: 0 <= k < |s.accepted| ==> AcceptanceOk(s.accepted[k], s))
    && (forall k, l :: 0 <= k < l < |s.accepted| ==> s.accepted[k].env.stageId != s.accepted[l].env.stageId)
  }

  lemma FinishedNotReserved(s: State, g: Config, clock: Time, watchLocked: set<CaptureId>, queueLocked: set<CaptureId>,
                            queue: seq<CaptureId>, id: CaptureId)
    requires RowsOk(s, g) && CanReserve(s, g, clock, watchLocked, queueLocked, queue)
    requires id in s.rows && !Active(s.rows[id].status)
    ensures !Active(ApplyReserve(s, g, clock, watchLocked, queue).rows[id].status)
  {
    var rows := Watched(s, g, clock, watchLocked);
    var free := FreeSlots(rows, g.policy, clock);
    if free > 0 {
      ReserveTakesSlots(s, g, clock, watchLocked, queueLocked, queue);
      TakeSlotsAt(rows, g.policy, clock, Picked(rows, queue, free), s.nextJob);
    }
  }

  /** A capture that is over in `s` is so in `t`, and has no new job. */
  ghost predicate StaysOver(s: State, t: State, id: CaptureId) {
    && (id in t.rows ==> id in s.rows && !Active(t.rows[id].status))
    && (forall j :: j in t.jobs && j.capture == id ==> j in s.jobs)
    && id < t.nextId
  }

  lemma CalmStaysOver(s: State, t: State, id: CaptureId)
    requires Calm(s, t) && id < s.nextId && (id in s.rows ==> !Active(s.rows[id].status))
    ensures StaysOver(s, t, id)
  {
    if id in t.rows && id in s.rows {
      assert RowCalm(s.rows[id], t.rows[id]);
    }
  }

  lemma ReserveTouches(s: State, g: Config, clock: Time, watchLocked: set<CaptureId>, queueLocked: set<CaptureId>, queue: seq<CaptureId>)
    requires CanReserve(s, g, clock, watchLocked, queueLocked, queue)
    ensures var t := ApplyReserve(s, g, clock, watchLocked, queue);
            t == s.(rows := t.rows, nextJob := t.nextJob, dispatching := t.dispatching) && t.rows.Keys == s.rows.Keys
  {
    var rows := Watched(s, g, clock, watchLocked);
    var free := FreeSlots(rows, g.policy, clock);
    if free > 0 {
      PickedFairly(rows, queue, free);
      TakeSlotsAt(rows, g.policy, clock, Picked(rows, queue, free), s.nextJob);
    }
  }

  lemma ReserveStaysOver(s: State, g: Config, clock: Time, watchLocked: set<CaptureId>, queueLocked: set<CaptureId>,
                         queue: seq<CaptureId>, id: CaptureId)
    requires RowsOk(s, g) && CanReserve(s, g, clock, watchLocked, queueLocked, queue)
    requires id < s.nextId && (id in s.rows ==> !Active(s.rows[id].status))
    ensures StaysOver(s, ApplyReserve(s, g, clock, watchLocked, queue), id)
  {
    ReserveTouches(s, g, clock, watchLocked, queueLocked, queue);
    if id in s.rows {
      FinishedNotReserved(s, g, clock, watchLocked, queueLocked, queue, id);
    }
  }

  lemma LaunchStaysOver(s: State, g: Config, id: CaptureId, pool: Pool, refused: bool, over: CaptureId)
    requires id in s.rows && LaunchBuildsJob(s.rows[id], refused)
    requires over < s.nextId && (over in s.rows ==> !Active(s.rows[over].status))
    ensures StaysOver(s, ApplyLaunch(s, g, id, pool, refused), over)
  {
  }

  /** No step makes a finished capture active again, or builds a job for it. */
  lemma FinishedStays(s: State, g: Config, step: Step, id: CaptureId)
    requires RowsOk(s, g) && Enabled(s, g, step)
    requires id < s.nextId && (id in s.rows ==> !Active(s.rows[id].status))
    ensures StaysOver(s, Apply(s, g, step), id)
  {
    if IsCalm(s, step) {
      CalmSteps(s, g, step);
      CalmStaysOver(s, Apply(s, g, step), id);
    } else {
      match step
      case Reserve(clock, watchLocked, queueLocked, queue) => ReserveStaysOver(s, g, clock, watchLocked, queueLocked, queue, id);
      case LaunchCapture(launched, pool, refused) => LaunchStaysOver(s, g, launched, pool, refused, id);
      case Deliver(job) => DeliverTouches(s, g, job);
      case Publish(_, _) =>
      case Tick(_) =>
      case End(_) =>
    }
  }

  lemma AcceptKeeps(s: State, g: Config, env: Envelope, outcome: Status)
    requires RowsOk(s, g) && JobsOk(s, g) && AcceptedOk(s) && Enabled(s, g, ReceiveResult(env, outcome))
    requires BindingError(Visible(s.rows, env), env).None?
    ensures AcceptedOk(ApplyReceive(s, env, outcome))
  {
    var t := ApplyReceive(s, env, outcome);
    var row := s.rows[env.stageId];
    forall j | j in t.jobs && j.capture == env.stageId
      ensures j.id == env.jobId && j.pool == env.pool && j.tenant == env.tenant
    {
      assert JobOk(j, s.rows, g, s.now, s.nextId, s.nextJob);
    }
    assert AcceptanceOk(Acceptance(env, row), t);
    forall k | 0 <= k < |s.accepted|
      ensures AcceptanceOk(s.accepted[k], t) && s.accepted[k].env.stageId != env.stageId
    {
      assert AcceptanceOk(s.accepted[k], s);
    }
  }

  lemma AcceptanceStays(s: State, t: State, a: Acceptance)
    requires AcceptanceOk(a, s) && StaysOver(s, t, a.env.stageId)
    ensures AcceptanceOk(a, t)
  {
  }

  lemma AcceptsNothing(s: State, g: Config, step: Step)
    requires Enabled(s, g, step) && (step.ReceiveResult? ==> BindingError(Visible(s.rows, step.env), step.env).Some?)
    ensures Apply(s, g, step).accepted == s.accepted
  {
    match step
    case Reserve(clock, watchLocked, queueLocked, queue) => ReserveTouches(s, g, clock, watchLocked, queueLocked, queue);
    case Deliver(job) => DeliverTouches(s, g, job);
    case Request(_, _, _, _) =>
    case LaunchCapture(_, _, _) =>
    case Publish(_, _) =>
    case Mark(_) =>
    case ReceiveResult(_, _) =>
    case _ =>
  }

  lemma StepAccepted(s: State, g: Config, step: Step)
    requires RowsOk(s, g) && JobsOk(s, g) && AcceptedOk(s) && Enabled(s, g, step)
    ensures AcceptedOk(Apply(s, g, step))
  {
    if step.ReceiveResult? && BindingError(Visible(s.rows, step.env), step.env).None? {
      AcceptKeeps(s, g, step.env, step.outcome);
    } else {
      var t := Apply(s, g, step);
      AcceptsNothing(s, g, step);
      forall k | 0 <= k < |s.accepted|
        ensures AcceptanceOk(s.accepted[k], t)
      {
        FinishedStays(s, g, step, s.accepted[k].env.stageId);
        AcceptanceStays(s, t, s.accepted[k]);
      }
    }
  }

  lemma {:induction false} RunStructure(s: State, g: Config, steps: seq<Step>)
    requires ValidConfig(g) && Structure(s, g) && AcceptedOk(s) && IsRun(s, g, steps)
    ensures Structure(After(s, g, steps), g) && AcceptedOk(After(s, g, steps))
    decreases |steps|
  {
    if steps != [] {
      StepStructure(s, g, steps[0]);
      StepAccepted(s, g, steps[0]);
      RunStructure(Apply(s, g, steps[0]), g, steps[1..]);
    }
  }

  /**
   Over any run, with any results from anyone, each capture takes at most one result; it found
   the capture running, and it is for the one job, pool and tenant the capture was dispatched with.
   */
  lemma AtMostOneResult(g: Config, steps: seq<Step>)
    requires ValidConfig(g) && IsRun(START, g, steps)
    ensures var s := After(START, g, steps);
            && (forall k, l :: 0 <= k < l < |s.accepted| ==> s.accepted[k].env.stageId != s.accepted[l].env.stageId)
            && (forall k :: 0 <= k < |s.accepted| ==>
                  var a := s.accepted[k];
                  && a.row.status.Running?
                  && a.row.taskId == Some(a.env.jobId)
                  && a.row.tenant == a.env.tenant
                  && a.row.pool.GetOr(DEFAULT_POOL) == a.env.pool
                  && (forall j :: j in s.jobs && j.capture == a.env.stageId ==> j.id == a.env.jobId && j.pool == a.env.pool))
            && (forall j, k :: j in s.jobs && k in s.jobs && j.capture == k.capture ==> j == k)
  {
    RunStructure(START, g, steps);
    var s := After(START, g, steps);
    assert forall k :: 0 <= k < |s.accepted| ==> AcceptanceOk(s.accepted[k], s);
  }
}
