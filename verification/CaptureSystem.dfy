/**
 Captures across every process that takes part: the database rows, the dispatchers, the
 broker, the scanners' claims and the jobs executing on scanners, under one clock.

 Each database transaction is one step, because each holds the lock its source takes. The
 broker may deliver a job it took any number of times, late or never; dispatchers may crash
 between two of their steps; results may be repeated, late, lost or malformed.
 */
module CaptureSystem {
  import opened Prelude
  import opened Captures

  /** `visibility` is the broker's redelivery timeout. */
  datatype Config = Config(policy: Policy, visibility: Time)

  /** The configuration that is accepted: redelivery at least 900 s after the stage timeout. */
  predicate ValidConfig(g: Config) {
    g.visibility >= 900
  }

  datatype Job = Job(id: JobId, capture: CaptureId, tenant: Tenant, pool: Pool, notAfter: Time, timeout: Time)

  /** What a dispatcher holds for a capture it reserved, between two of its steps. */
  datatype Phase = Reserved | Built(job: Job) | Sent(job: Job) | Unsent(job: Job)

  datatype Execution = Execution(job: Job, since: Time)

  /** A result that was accepted, with the row it was accepted for. */
  datatype Acceptance = Acceptance(env: Envelope, row: Capture)

  datatype State = State(
    now: Time,
    rows: Table,
    nextId: CaptureId,
    nextJob: JobId,
    dispatching: map<CaptureId, Phase>,
    broker: set<Job>,
    claims: map<JobId, Time>,
    executing: map<nat, Execution>,
    nextExecution: nat,
    usage: Usage,
    // History, which no step reads.
    jobs: set<Job>,
    accepted: seq<Acceptance>,
    created: map<CaptureId, DayKey>,
    refunded: set<CaptureId>)

  datatype Step =
    | Tick(to: Time)
    | Request(tenant: Tenant, asset: Endpoint, enabled: bool, authorized: bool)
    | CancelCapture(id: CaptureId)
    | Reserve(clock: Time, watchLocked: set<CaptureId>, queueLocked: set<CaptureId>, queue: seq<CaptureId>)
    | LaunchCapture(id: CaptureId, pool: Pool, refused: bool)
    | Publish(id: CaptureId, ok: bool)
    | Mark(id: CaptureId)
    | CrashDispatcher(id: CaptureId)
    | Deliver(job: Job)
    | End(execution: nat)
    | ReceiveResult(env: Envelope, outcome: Status)
    | Delete(id: CaptureId)
    | PurgeUsage(tenant: Tenant)

  const START := State(0, map[], 0, 0, map[], {}, map[], map[], 0, map[], {}, [], map[], {})

  // ------------------------------------------------------------------ transitions

  function CreateCapture(s: State, t: Tenant, a: Endpoint): State {
    s.(rows := s.rows[s.nextId := NewCapture(t, a, s.now)],
       nextId := s.nextId + 1,
       usage := Charge(s.usage, t, s.now),
       created := s.created[s.nextId := (t, Day(s.now))])
  }

  function ApplyRequest(s: State, g: Config, t: Tenant, a: Endpoint, enabled: bool, authorized: bool): State {
    if Admits(s.rows, s.usage, g.policy, t, a, s.now, enabled, authorized) then CreateCapture(s, t, a) else s
  }

  function ApplyCancel(s: State, id: CaptureId): State
    requires id in s.rows
  {
    var c := s.rows[id];
    s.(rows := s.rows[id := Cancel(c)],
       usage := Refund(s.usage, c, s.now),
       refunded := if GivesBack(c, s.now) then s.refunded + {id} else s.refunded)
  }

  function Watched(s: State, g: Config, clock: Time, locked: set<CaptureId>): Table {
    Watchdog(s.rows, g.policy, clock, locked)
  }

  ghost predicate CanReserve(s: State, g: Config, clock: Time, watchLocked: set<CaptureId>, queueLocked: set<CaptureId>,
                             queue: seq<CaptureId>) {
    var rows := Watched(s, g, clock, watchLocked);
    var free := FreeSlots(rows, g.policy, clock);
    && clock <= s.now
    && (free > 0 ==> IsQueueHead(rows, queueLocked, free * 5, queue))
  }

  function ApplyReserve(s: State, g: Config, clock: Time, watchLocked: set<CaptureId>, queue: seq<CaptureId>): State
    requires FreeSlots(Watched(s, g, clock, watchLocked), g.policy, clock) > 0 ==> forall i :: i in queue ==> i in s.rows
  {
    var rows := Watched(s, g, clock, watchLocked);
    var free := FreeSlots(rows, g.policy, clock);
    if free <= 0 then s.(rows := rows)
    else
      var picked := Picked(rows, queue, free);
      assert forall i :: i in picked ==> i in s.rows by {
        PickedFromQueue(rows, queue, free);
      }
      s.(rows := TakeSlots(rows, g.policy, clock, picked, s.nextJob),
         nextJob := s.nextJob + |picked|,
         dispatching := s.dispatching + map i | i in picked :: Reserved)
  }

  function JobFor(s: State, g: Config, id: CaptureId, pool: Pool): Job
    requires id in s.rows && s.rows[id].taskId.Some?
  {
    var c := s.rows[id];
    Job(c.taskId.value, id, c.tenant, pool, c.startedAt.GetOr(s.now) + START_WINDOW, JobTimeout(g.policy))
  }

  function ApplyLaunch(s: State, g: Config, id: CaptureId, pool: Pool, refused: bool): State {
    if id !in s.rows then s.(dispatching := s.dispatching - {id})
    else
      var c := s.rows[id];
      var rows := s.rows[id := Launch(c, pool, refused)];
      if LaunchBuildsJob(c, refused) then
        var job := JobFor(s, g, id, pool);
        s.(rows := rows, dispatching := s.dispatching[id := Built(job)], jobs := s.jobs + {job})
      else s.(rows := rows, dispatching := s.dispatching - {id})
  }

  function ApplyPublish(s: State, id: CaptureId, ok: bool): State
    requires id in s.dispatching && s.dispatching[id].Built?
  {
    var job := s.dispatching[id].job;
    if ok then s.(broker := s.broker + {job}, dispatching := s.dispatching[id := Sent(job)])
    else s.(dispatching := s.dispatching[id := Unsent(job)])
  }

  function ApplyMark(s: State, id: CaptureId): State
    requires id in s.dispatching && (s.dispatching[id].Sent? || s.dispatching[id].Unsent?)
  {
    var phase := s.dispatching[id];
    s.(rows := if id in s.rows then s.rows[id := MarkDispatched(s.rows[id], phase.job.id, phase.Sent?, s.now)] else s.rows,
       dispatching := s.dispatching - {id})
  }

  predicate ClaimHeld(s: State, job: Job) {
    job.id in s.claims && s.claims[job.id] > s.now
  }

  /** A scanner takes a delivery: it claims the job, then refuses it unstarted when it came too late. */
  function ApplyDeliver(s: State, g: Config, job: Job): State {
    if ClaimHeld(s, job) then s
    else
      var claimed := s.(claims := s.claims[job.id := s.now + job.timeout + g.visibility]);
      if s.now > job.notAfter then claimed
      else claimed.(executing := s.executing[s.nextExecution := Execution(job, s.now)],
                    nextExecution := s.nextExecution + 1)
  }

  function ApplyReceive(s: State, env: Envelope, outcome: Status): State {
    var c := Visible(s.rows, env);
    s.(rows := Receive(s.rows, env, outcome),
       accepted := if BindingError(c, env).None? then s.accepted + [Acceptance(env, c.value)] else s.accepted)
  }

  function ApplyPurge(s: State, t: Tenant): State {
    s.(usage := map k | k in s.usage && !(k.0 == t && k.1 < Day(s.now - 7 * DAY)) :: s.usage[k])
  }

  ghost predicate Enabled(s: State, g: Config, step: Step) {
    match step
    case Tick(to) =>
      // A job still executing at its hard limit is killed, so time does not pass it.
      && s.now <= to
      && forall e :: e in s.executing ==> to <= s.executing[e].since + HardLimit(s.executing[e].job.timeout)
    case Request(_, _, _, _) => true
    case CancelCapture(id) => id in s.rows
    case Reserve(clock, watchLocked, queueLocked, queue) => CanReserve(s, g, clock, watchLocked, queueLocked, queue)
    case LaunchCapture(id, _, _) => id in s.dispatching && s.dispatching[id].Reserved?
    case Publish(id, _) => id in s.dispatching && s.dispatching[id].Built?
    case Mark(id) => id in s.dispatching && (s.dispatching[id].Sent? || s.dispatching[id].Unsent?)
    case CrashDispatcher(id) => id in s.dispatching
    case Deliver(job) => job in s.broker
    case End(e) => e in s.executing
    case ReceiveResult(_, outcome) => outcome.Succeeded? || outcome.Failed? || outcome.Blocked?
    case Delete(id) => id in s.rows && !Active(s.rows[id].status)
    case PurgeUsage(_) => true
  }

  ghost function Apply(s: State, g: Config, step: Step): State
    requires Enabled(s, g, step)
  {
    match step
    case Tick(to) => s.(now := to)
    case Request(t, a, enabled, authorized) => ApplyRequest(s, g, t, a, enabled, authorized)
    case CancelCapture(id) => ApplyCancel(s, id)
    case Reserve(clock, watchLocked, _, queue) => ApplyReserve(s, g, clock, watchLocked, queue)
    case LaunchCapture(id, pool, refused) => ApplyLaunch(s, g, id, pool, refused)
    case Publish(id, ok) => ApplyPublish(s, id, ok)
    case Mark(id) => ApplyMark(s, id)
    case CrashDispatcher(id) => s.(dispatching := s.dispatching - {id})
    case Deliver(job) => ApplyDeliver(s, g, job)
    case End(e) => s.(executing := s.executing - {e})
    case ReceiveResult(env, outcome) => ApplyReceive(s, env, outcome)
    case Delete(id) => s.(rows := s.rows - {id})
    case PurgeUsage(t) => ApplyPurge(s, t)
  }

  // ------------------------------------------------------------------------- runs

  ghost predicate IsRun(s: State, g: Config, steps: seq<Step>)
    decreases |steps|
  {
    steps == [] || (Enabled(s, g, steps[0]) && IsRun(Apply(s, g, steps[0]), g, steps[1..]))
  }

  ghost function After(s: State, g: Config, steps: seq<Step>): State
    requires IsRun(s, g, steps)
    decreases |steps|
  {
    if steps == [] then s else After(Apply(s, g, steps[0]), g, steps[1..])
  }

  // ------------------------------------------------------------------ assumptions

  /** The job is executing, or a scanner could still start it. */
  ghost predicate MayRun(s: State, job: Job) {
    || (exists e :: e in s.executing && s.executing[e].job == job)
    || (&& s.now <= job.notAfter
        && job.id !in s.claims
        && (job in s.broker || (job.capture in s.dispatching && s.dispatching[job.capture] == Built(job))))
  }

  /** A scanner names only jobs that were built, and reports on a job only once it is done with it. */
  ghost predicate Honest(s: State, env: Envelope) {
    && (env.jobId < s.nextJob ==> exists j :: j in s.jobs && j.id == env.jobId)
    && (forall j :: j in s.jobs && j.id == env.jobId ==> !MayRun(s, j))
  }

  /** The row's slot, if any, has passed. */
  predicate SlotPassed(c: Capture, now: Time) {
    c.slotUntil.Some? ==> c.slotUntil.value <= now
  }

  ghost predicate Disciplined(s: State, step: Step) {
    match step
    case ReceiveResult(env, _) => Honest(s, env)
    case Delete(id) => id in s.rows ==> SlotPassed(s.rows[id], s.now)
    case _ => true
  }

  ghost predicate IsDisciplinedRun(s: State, g: Config, steps: seq<Step>)
    decreases |steps|
  {
    steps == [] ||
    (Enabled(s, g, steps[0]) && Disciplined(s, steps[0]) && IsDisciplinedRun(Apply(s, g, steps[0]), g, steps[1..]))
  }
}
