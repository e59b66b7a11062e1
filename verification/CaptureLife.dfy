/**
 The life of one capture: what each step does to it, said of its row alone, and what a request and a cancellation
 do to the day's count (backend/app/screenshots/service.py).
 */
module CaptureLife {
  import opened Prelude
  import opened Captures
  import opened CaptureSystem
  import opened CaptureBinding
  import opened CaptureWatch
  import opened CaptureOrder

  /** Waiting or running. */
  predicate Unfinished(c: Capture) {
    c.status == Queued || c.status == Running
  }

  function Allowance(usage: Usage, t: Tenant, now: Time): nat {
    if (t, now / 86400) in usage then usage[(t, now / 86400)] else 0
  }

  lemma UnfinishedAre(rows: Table, t: Tenant)
    ensures ActiveOf(rows, t) == set i | i in rows && rows[i].tenant == t && Unfinished(rows[i])
  {
  }

  lemma BusyMeans(rows: Table, a: Endpoint)
    ensures EndpointBusy(rows, a) <==> exists i :: i in rows && rows[i].asset == a && Unfinished(rows[i])
  {
    if i :| i in rows && rows[i].asset == a && Unfinished(rows[i]) {
      assert Active(rows[i].status);
    }
  }

  /**
   A request makes a new queued capture and counts it, on this UTC day, exactly when captures are available and
   enabled, the endpoint may be visited and has no unfinished capture, and the tenant is below both its limits;
   otherwise it changes nothing.
   */
  lemma RequestExactly(s: State, g: Config, t: Tenant, a: Endpoint, enabled: bool, authorized: bool)
    ensures var after := Apply(s, g, Request(t, a, enabled, authorized));
            var unfinished := set i | i in s.rows && s.rows[i].tenant == t && Unfinished(s.rows[i]);
            if && g.policy.available && enabled && authorized
               && !(exists i :: i in s.rows && s.rows[i].asset == a && Unfinished(s.rows[i]))
               && |unfinished| < g.policy.perTenantQueued && Allowance(s.usage, t, s.now) < g.policy.perTenantDaily
            then && after.rows == s.rows[s.nextId := Capture(t, a, s.now, Queued, None, None, None, None, None)]
                 && after.usage == s.usage[(t, s.now / 86400) := Allowance(s.usage, t, s.now) + 1]
                 && after == s.(rows := after.rows, usage := after.usage, nextId := s.nextId + 1, created := after.created)
            else after == s
  {
    UnfinishedAre(s.rows, t);
    BusyMeans(s.rows, a);
  }

  /**
   Cancelling ends an unfinished capture and nothing else of it: a running one keeps its slot. The day's count
   comes down exactly when the capture was still waiting and is of this UTC day.
   */
  lemma CancelExactly(s: State, g: Config, id: CaptureId)
    requires id in s.rows
    ensures var c, after := s.rows[id], Apply(s, g, CancelCapture(id));
            && after.rows == (if Unfinished(c) then s.rows[id := c.(status := Cancelled)] else s.rows)
            && (if c.status == Queued && c.createdAt / 86400 == s.now / 86400
                then var n := Allowance(s.usage, c.tenant, s.now);
                     after.usage == s.usage[(c.tenant, s.now / 86400) := if n == 0 then 0 else n - 1]
                else after.usage == s.usage)
  {
  }

  /** How long a slot is held: ten minutes to start, the job's time, five minutes' grace and one for the result. */
  function Hold(p: Policy): Time {
    600 + (if 3 * p.timeoutSeconds < 0 then 60 else 3 * p.timeoutSeconds + 60) + 300 + 60
  }

  /** The row runs from now on, under a job number of its own and with a slot that outlasts that job. */
  predicate Started(c: Capture, d: Capture, p: Policy, clock: Time, jobs: nat, more: nat) {
    && d.taskId.Some? && jobs <= d.taskId.value < more
    && d == c.(status := Running, startedAt := Some(clock), taskId := d.taskId, slotUntil := Some(clock + Hold(p)))
  }

  /** The watchdog's reasons, once more: the slot has passed, or after ten minutes nobody noted a dispatch. */
  predicate Hangs(c: Capture, p: Policy, clock: Time) {
    var age := if c.startedAt.Some? then clock - c.startedAt.value else 0;
    && c.status == Running
    && (|| (c.slotUntil.Some? && c.slotUntil.value < clock)
        || (c.slotUntil.None? && age > Hold(p))
        || (c.dispatchedAt.None? && age > 600))
  }

  lemma PickedWait(rows: Table, locked: set<CaptureId>, queue: seq<CaptureId>, free: nat, i: CaptureId)
    requires IsQueueHead(rows, locked, free * 5, queue)
    ensures var picked := Picked(rows, queue, free);
            Distinct(picked) && AllKnown(rows, picked) && (i in picked ==> i in queue && Waiting(rows, locked, i))
  {
    PickedFairly(rows, queue, free);
    assert forall k :: 0 <= k < |queue| ==> Waiting(rows, locked, queue[k]);
  }

  lemma TakenAt(rows: Table, p: Policy, clock: Time, picked: seq<CaptureId>, job: JobId, i: CaptureId)
    requires AllKnown(rows, picked) && Distinct(picked) && i in rows
    ensures var d := TakeSlots(rows, p, clock, picked, job)[i];
            if i in picked then Started(rows[i], d, p, clock, job, job + |picked|) else d == rows[i]
  {
    TakeSlotsAt(rows, p, clock, picked, job);
    if i in picked {
      var k :| 0 <= k < |picked| && picked[k] == i;
    }
  }

  /** What becomes of a row when the picked ones take their slots. */
  lemma RowTaken(rows: Table, p: Policy, clock: Time, locked: set<CaptureId>, queue: seq<CaptureId>, free: nat, job: JobId, i: CaptureId)
    requires IsQueueHead(rows, locked, free * 5, queue) && i in rows
    ensures AllKnown(rows, Picked(rows, queue, free))
    ensures var picked := Picked(rows, queue, free);
            var d := TakeSlots(rows, p, clock, picked, job)[i];
            if i in picked then i in queue && Waiting(rows, locked, i) && Started(rows[i], d, p, clock, job, job + |picked|)
            else d == rows[i]
  {
    PickedWait(rows, locked, queue, free, i);
    TakenAt(rows, p, clock, Picked(rows, queue, free), job, i);
  }

  lemma ReserveRow(s: State, g: Config, clock: Time, watchLocked: set<CaptureId>, queueLocked: set<CaptureId>, queue: seq<CaptureId>,
                   i: CaptureId)
    requires CanReserve(s, g, clock, watchLocked, queueLocked, queue) && i in s.rows
    ensures i in ApplyReserve(s, g, clock, watchLocked, queue).rows
    ensures var c, after := Watched(s, g, clock, watchLocked)[i], ApplyReserve(s, g, clock, watchLocked, queue);
            || after.rows[i] == c
            || (c.status == Queued && i !in queueLocked && Started(c, after.rows[i], g.policy, clock, s.nextJob, after.nextJob))
  {
    var rows := Watched(s, g, clock, watchLocked);
    if FreeSlots(rows, g.policy, clock) > 0 {
      RowTaken(rows, g.policy, clock, queueLocked, queue, FreeSlots(rows, g.policy, clock), s.nextJob, i);
    }
  }

  /**
   A reservation fails what hangs and is not held elsewhere, starts some waiting captures that are not held elsewhere,
   and leaves every other row alone.
   */
  lemma ReserveExactly(s: State, g: Config, clock: Time, watchLocked: set<CaptureId>, queueLocked: set<CaptureId>,
                       queue: seq<CaptureId>, i: CaptureId)
    requires CanReserve(s, g, clock, watchLocked, queueLocked, queue) && i in s.rows
    ensures i in ApplyReserve(s, g, clock, watchLocked, queue).rows
    ensures var c, after := s.rows[i], ApplyReserve(s, g, clock, watchLocked, queue);
            var d := after.rows[i];
            if c.status == Running then d == if i !in watchLocked && Hangs(c, g.policy, clock) then c.(status := Failed) else c
            else d == c || (c.status == Queued && i !in queueLocked && Started(c, d, g.policy, clock, s.nextJob, after.nextJob))
  {
    WatchdogExactly(s.rows, g.policy, clock, watchLocked, i);
    ReserveRow(s, g, clock, watchLocked, queueLocked, queue, i);
  }

  /** The slots taken up: by what runs, and by what may still be executing. */
  function TakenUp(rows: Table, clock: Time): set<CaptureId> {
    set i | i in rows && (rows[i].status == Running || (rows[i].slotUntil.Some? && rows[i].slotUntil.value > clock))
  }

  lemma TakenUpIs(rows: Table, clock: Time)
    ensures TakenUp(rows, clock) == OccupiedIds(rows, clock)
  {
  }

  /** A reservation starts as many captures as slots are free, if that many wait, and none if no slot is free. */
  lemma ReserveStarts(s: State, g: Config, clock: Time, watchLocked: set<CaptureId>, queueLocked: set<CaptureId>, queue: seq<CaptureId>)
    requires CanReserve(s, g, clock, watchLocked, queueLocked, queue)
    ensures var rows, after := Watched(s, g, clock, watchLocked), ApplyReserve(s, g, clock, watchLocked, queue);
            var free := g.policy.maxConcurrent - |TakenUp(rows, clock)|;
            && (free <= 0 ==> after == s.(rows := rows))
            && (free > 0 ==>
                && IsQueueHead(rows, queueLocked, 5 * free, queue)
                && after.nextJob == s.nextJob + if free <= |queue| then free else |queue|)
  {
    var rows := Watched(s, g, clock, watchLocked);
    TakenUpIs(rows, clock);
    var free := FreeSlots(rows, g.policy, clock);
    if free > 0 {
      PickedFairly(rows, queue, free);
    }
  }

  /** Of two that wait, the one ahead is started if the other is. */
  lemma StartedInOrder(s: State, g: Config, clock: Time, watchLocked: set<CaptureId>, queueLocked: set<CaptureId>, queue: seq<CaptureId>,
                       k: nat, l: nat)
    requires CanReserve(s, g, clock, watchLocked, queueLocked, queue) && FreeSlots(Watched(s, g, clock, watchLocked), g.policy, clock) > 0
    requires AllKnown(s.rows, queue) && k < |queue| && l < |queue| && Ahead(s.rows, queue, k, l)
    ensures var after := ApplyReserve(s, g, clock, watchLocked, queue);
            after.rows[queue[l]].status == Running ==> after.rows[queue[k]].status == Running
  {
    var rows := Watched(s, g, clock, watchLocked);
    var free := FreeSlots(rows, g.policy, clock);
    assert Ahead(rows, queue, k, l) by {
      assert forall n :: 0 <= n < |queue| ==> rows[queue[n]].tenant == s.rows[queue[n]].tenant;
    }
    ServedInOrder(rows, queue, free, k, l);
    RowTaken(rows, g.policy, clock, queueLocked, queue, free, s.nextJob, queue[k]);
    RowTaken(rows, g.policy, clock, queueLocked, queue, free, s.nextJob, queue[l]);
    assert Waiting(rows, queueLocked, queue[l]);
  }

  /** Launching blocks a refused capture and frees its slot; else it notes the pool and builds the job. */
  lemma LaunchExactly(s: State, g: Config, id: CaptureId, pool: Pool, refused: bool)
    requires id in s.rows && id in s.dispatching && s.dispatching[id].Reserved?
    ensures var c, after := s.rows[id], Apply(s, g, LaunchCapture(id, pool, refused));
            if c.status != Running || c.taskId.None? then after.rows == s.rows && after.jobs == s.jobs
            else if refused then after.rows == s.rows[id := c.(status := Blocked, slotUntil := None)] && after.jobs == s.jobs
            else
              var job := Job(c.taskId.value, id, c.tenant, pool, (if c.startedAt.Some? then c.startedAt.value else s.now) + 600,
                             Hold(g.policy) - 960);
              && after.rows == s.rows[id := c.(pool := Some(pool))] && after.jobs == s.jobs + {job}
              && id in after.dispatching && after.dispatching[id] == Built(job)
  {
  }

  /** Noting a dispatch counts only for the same job of a running capture: its time, or its failure and the slot back. */
  lemma MarkExactly(s: State, g: Config, id: CaptureId)
    requires id in s.rows && id in s.dispatching && (s.dispatching[id].Sent? || s.dispatching[id].Unsent?)
    ensures var c, after := s.rows[id], Apply(s, g, Mark(id));
            && id !in after.dispatching
            && (if c.status != Running || c.taskId != Some(s.dispatching[id].job.id) then after.rows == s.rows
                else if s.dispatching[id].Sent? then after.rows == s.rows[id := c.(dispatchedAt := Some(s.now))]
                else after.rows == s.rows[id := c.(status := Failed, slotUntil := None)])
  {
  }

  /** The result is of the row's own job, from the pool it went to. */
  predicate FromItsJob(c: Capture, env: Envelope) {
    c.taskId == Some(env.jobId) && env.pool == match c.pool case Some(pool) => pool case None => "default"
  }

  /**
   A result ends a capture exactly when it names this capture twice and its tenant, says it is a screenshot, is of the
   row's own job and pool, and the capture is running. A refused one from the capture's own job still gives the slot
   back. Nothing else changes any row.
   */
  lemma ResultExactly(s: State, g: Config, env: Envelope, outcome: Status, id: CaptureId)
    requires id in s.rows && Enabled(s, g, ReceiveResult(env, outcome))
    ensures id in Apply(s, g, ReceiveResult(env, outcome)).rows
    ensures var c, after := s.rows[id], Apply(s, g, ReceiveResult(env, outcome));
            after.rows[id] ==
            if env.stageId != id || env.tenant != c.tenant || !FromItsJob(c, env) then c
            else if env.scanId == id && env.adapter == "screenshot" && c.status == Running then c.(status := outcome, slotUntil := None)
            else c.(slotUntil := None)
    ensures var c, after := s.rows[id], Apply(s, g, ReceiveResult(env, outcome));
            env.stageId == id ==>
            (after.accepted != s.accepted <==>
             env.scanId == id && env.tenant == c.tenant && env.adapter == "screenshot" && FromItsJob(c, env) && c.status == Running)
  {
  }

  /** The other steps leave every row that stays as it is, and only a finished capture is deleted. */
  lemma OthersLeaveRows(s: State, g: Config, step: Step, id: CaptureId)
    requires Enabled(s, g, step) && id in s.rows
    requires step.Tick? || step.Publish? || step.CrashDispatcher? || step.Deliver? || step.End? || step.Delete? || step.PurgeUsage?
    ensures var after := Apply(s, g, step);
            if step.Delete? && step.id == id then id !in after.rows && !Unfinished(s.rows[id])
            else id in after.rows && after.rows[id] == s.rows[id]
  {
  }

  /**
   Delivering a job starts it exactly when no scanner's claim on it still holds and the time to start has not passed;
   either way a delivery that finds no claim makes one that outlasts the job's time and the broker's redelivery.
   */
  lemma DeliverExactly(s: State, g: Config, job: Job)
    requires job in s.broker
    ensures var after := Apply(s, g, Deliver(job));
            if job.id in s.claims && s.now < s.claims[job.id] then after == s
            else
              && after.claims == s.claims[job.id := s.now + job.timeout + g.visibility]
              && after.executing == if s.now <= job.notAfter then s.executing[s.nextExecution := Execution(job, s.now)] else s.executing
  {
  }
}
