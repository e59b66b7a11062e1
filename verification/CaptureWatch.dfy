/**
 The watchdog against live jobs: it ends captures that hang, and must not end those whose job is at work.
 */
module CaptureWatch {
  import opened Prelude
  import opened Captures
  import opened CaptureSystem
  import opened CaptureBinding
  import opened CaptureSafety
  import opened CaptureDeletion

  /** A job that may run has a slot that has not passed, and its row was started with it. */
  lemma LiveRow(s: State, g: Config, j: Job)
    requires RowsOk(s, g) && JobsOk(s, g) && ExecutionsOk(s) && SlotsOk(s) && ClaimsOk(s)
    requires j in s.jobs && MayRun(s, j)
    ensures j.capture in s.rows
    ensures var c := s.rows[j.capture];
            c.slotUntil.Some? && s.now < c.slotUntil.value && c.startedAt.Some? && c.startedAt.value == j.notAfter - START_WINDOW
  {
    var c := s.rows[j.capture];
    assert JobOk(j, s.rows, g, s.now, s.nextId, s.nextJob);
    assert RowOk(c, g, s.now, s.nextJob);
    if exists e :: e in s.executing && s.executing[e].job == j {
      var e :| e in s.executing && s.executing[e].job == j;
      assert ExecutionOk(s.executing[e], s.broker, s.claims, s.now);
    }
  }

  /** A reservation changes no running row but by its watchdog. */
  lemma ReserveLeavesRunning(s: State, g: Config, clock: Time, watchLocked: set<CaptureId>, queueLocked: set<CaptureId>,
                             queue: seq<CaptureId>, i: CaptureId)
    requires CanReserve(s, g, clock, watchLocked, queueLocked, queue) && i in s.rows && s.rows[i].status.Running?
    ensures i in ApplyReserve(s, g, clock, watchLocked, queue).rows
    ensures ApplyReserve(s, g, clock, watchLocked, queue).rows[i] == Watched(s, g, clock, watchLocked)[i]
  {
    var rows := Watched(s, g, clock, watchLocked);
    var free := FreeSlots(rows, g.policy, clock);
    if free > 0 {
      PickedAreQueued(rows, queueLocked, free, queue);
      TakeSlotsAt(rows, g.policy, clock, Picked(rows, queue, free), s.nextJob);
    }
  }

  /**
   After any disciplined run, a reservation leaves a running capture whose job may still run exactly as it is if it was
   noted as dispatched, is held by another transaction, or is not ten minutes old; else it fails it.
   */
  lemma LiveCaptureSpared(g: Config, steps: seq<Step>, clock: Time, watchLocked: set<CaptureId>, queueLocked: set<CaptureId>,
                          queue: seq<CaptureId>, j: Job)
    requires ValidConfig(g) && IsDisciplinedRun(START, g, steps) && IsRun(START, g, steps)
    requires var s := After(START, g, steps);
             && CanReserve(s, g, clock, watchLocked, queueLocked, queue)
             && j in s.jobs && MayRun(s, j) && j.capture in s.rows && s.rows[j.capture].status.Running?
    ensures var s := After(START, g, steps);
            var c, d := s.rows[j.capture], ApplyReserve(s, g, clock, watchLocked, queue).rows[j.capture];
            if c.dispatchedAt.Some? || j.capture in watchLocked || clock <= j.notAfter then d == c else d == c.(status := Failed)
  {
    RunKeeps(START, g, steps);
    var s := After(START, g, steps);
    LiveRow(s, g, j);
    ReserveLeavesRunning(s, g, clock, watchLocked, queueLocked, queue, j.capture);
    WatchdogExactly(s.rows, g.policy, clock, watchLocked, j.capture);
  }

  // --------------------------------------------- a live capture that is failed

  /** One running row that was never noted as dispatched, and its job on the broker, unclaimed. */
  ghost predicate Unnoted(s: State, id: CaptureId, job: Job) {
    && s.rows.Keys == {id} && s.rows[id].status.Running? && s.rows[id].dispatchedAt.None?
    && s.rows[id].startedAt == Some(job.notAfter - START_WINDOW)
    && job in s.broker && job.id !in s.claims && job.timeout >= 60
    && s.executing == map[] && s.now <= job.notAfter
  }

  /** It is delivered in the last moment and executes; the next pass fails its row. */
  function LastMoment(job: Job): seq<Step> {
    [Tick(job.notAfter), Deliver(job), Tick(job.notAfter + 1)]
  }

  lemma DeliveredInLastMoment(s: State, g: Config, id: CaptureId, job: Job) returns (t: State)
    requires Unnoted(s, id, job)
    ensures IsRun(s, g, LastMoment(job)) && After(s, g, LastMoment(job)) == t
    ensures t.rows == s.rows && t.now == job.notAfter + 1 && exists e :: e in t.executing && t.executing[e].job == job
  {
    var s1 := s.(now := job.notAfter);
    OneStep(s, g, Tick(job.notAfter));
    Delivered(s1, g, job);
    OneStep(s1, g, Deliver(job));
    var s2 := ApplyDeliver(s1, g, job);
    OneStep(s2, g, Tick(job.notAfter + 1));
    t := s2.(now := job.notAfter + 1);
    assert t.executing[s.nextExecution].job == job;
    RunsCompose(s, g, [Tick(job.notAfter)], [Deliver(job)]);
    RunsCompose(s, g, [Tick(job.notAfter)] + [Deliver(job)], [Tick(job.notAfter + 1)]);
    assert LastMoment(job) == [Tick(job.notAfter)] + [Deliver(job)] + [Tick(job.notAfter + 1)];
  }

  /**
   The condition is needed: if the dispatcher stops between publishing a job and noting it, a capture can be failed
   while its job executes, under every policy that admits a capture.
   */
  lemma UnnotedCaptureIsFailed(g: Config) returns (steps: seq<Step>, id: CaptureId)
    requires Generous(g)
    ensures IsRun(START, g, steps)
    ensures var s := After(START, g, steps);
            && id in s.rows && s.rows[id].status.Running?
            && (exists e :: e in s.executing && s.executing[e].job.capture == id)
            && Watched(s, g, s.now, {})[id].status.Failed?
  {
    id := START.nextId;
    var job := RoundJob(START, g);
    var s := RoundStarts(START, g);
    var t := DeliveredInLastMoment(s, g, id, job);
    RunsCompose(START, g, Round(START, g)[..4], LastMoment(job));
    steps := Round(START, g)[..4] + LastMoment(job);
    WatchdogExactly(t.rows, g.policy, t.now, {}, id);
  }
}
