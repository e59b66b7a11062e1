/**
 Starts that are not one step: a start reads the scan and the counts and writes the status later. The start lock
 keeps other starts out in between, and nothing else (backend/app/scans/orchestrator.py, try_start).
 */
module ScanStarts {
  import opened Prelude
  import opened Scans
  import opened ScanRuns
  import opened ScanProgress

  /** What the start that holds the lock has read. */
  datatype Reading = Reading(id: ScanId, scan: Scan, inactive: bool, full: bool)

  datatype System = System(s: State, reading: Option<Reading>)

  datatype Move = Other(step: Step) | ReadScan(id: ScanId, inactive: bool) | WriteScan

  /** Only starts take the lock. */
  predicate Enabled(w: System, m: Move) {
    match m
    case Other(step) => !step.StartScan?
    case ReadScan(id, _) => w.reading.None? && id in w.s.scans
    case WriteScan => w.reading.Some? && w.reading.value.id in w.s.scans
  }

  function Moved(w: System, limits: Limits, m: Move): System
    requires Enabled(w, m)
  {
    match m
    case Other(step) => w.(s := ScanRuns.Apply(w.s, limits, step))
    case ReadScan(id, inactive) =>
      var scan := w.s.scans[id];
      w.(reading := Some(Reading(id, scan, inactive, Full(w.s.scans, limits, scan.tenant))))
    case WriteScan =>
      var r := w.reading.value;
      System(w.s.(scans := w.s.scans[r.id := SplitStart(r.scan, w.s.scans[r.id], r.inactive, r.full)]), None)
  }

  predicate IsRun(w: System, limits: Limits, moves: seq<Move>)
    decreases |moves|
  {
    moves == [] || (Enabled(w, moves[0]) && IsRun(Moved(w, limits, moves[0]), limits, moves[1..]))
  }

  function Reached(w: System, limits: Limits, moves: seq<Move>): System
    requires IsRun(w, limits, moves)
    decreases |moves|
  {
    if moves == [] then w else Reached(Moved(w, limits, moves[0]), limits, moves[1..])
  }

  // --------------------------------------------------------------- invariant

  ghost predicate Numbered(s: State) {
    forall i :: i in s.scans ==> i < s.nextScan
  }

  /** A place that was free when it was read is still free: only starts take places. */
  ghost predicate PlaceHeld(w: System, limits: Limits) {
    w.reading.Some? ==>
      && w.reading.value.id in w.s.scans
      && w.s.scans[w.reading.value.id].tenant == w.reading.value.scan.tenant
      && (!w.reading.value.full ==> !Full(w.s.scans, limits, w.reading.value.scan.tenant))
  }

  ghost predicate Inv(w: System, limits: Limits) {
    Numbered(w.s) && WithinLimits(w.s.scans, limits) && PlaceHeld(w, limits)
  }

  /** No other step makes a scan running or hands it to another tenant, whatever shape the scan is in. */
  lemma OtherEffect(s: State, limits: Limits, step: Step, id: ScanId)
    requires id in s.scans && !step.StartScan?
    ensures var a, b := s.scans[id], Effect(s, limits, step, id);
            b.tenant == a.tenant && (b.status.Running? ==> a.status.Running?)
  {
  }

  /** The scans in `b` that run, run in `a` already. */
  ghost predicate OnlyFewer(a: map<ScanId, Scan>, b: map<ScanId, Scan>) {
    forall i :: i in b && b[i].status.Running? ==> i in a && a[i].status.Running? && b[i].tenant == a[i].tenant
  }

  lemma OtherOnlyFewer(s: State, limits: Limits, step: Step)
    requires Numbered(s) && !step.StartScan?
    ensures OnlyFewer(s.scans, ScanRuns.Apply(s, limits, step).scans) && Numbered(ScanRuns.Apply(s, limits, step))
    ensures forall i :: i in s.scans ==> ScanRuns.Apply(s, limits, step).scans[i].tenant == s.scans[i].tenant
  {
    var t := ScanRuns.Apply(s, limits, step);
    forall i | i in s.scans
      ensures i != s.nextScan && t.scans[i] == Effect(s, limits, step, i)
      ensures t.scans[i].tenant == s.scans[i].tenant && (t.scans[i].status.Running? ==> s.scans[i].status.Running?)
    {
      OtherEffect(s, limits, step, i);
    }
  }

  lemma FewerCounts(a: map<ScanId, Scan>, b: map<ScanId, Scan>, limits: Limits)
    requires OnlyFewer(a, b)
    ensures WithinLimits(a, limits) ==> WithinLimits(b, limits)
    ensures forall t: Tenant :: !Full(a, limits, t) ==> !Full(b, limits, t)
  {
    SubsetSize(RunningIds(b), RunningIds(a));
    forall t: Tenant
      ensures |RunningOf(b, t)| <= |RunningOf(a, t)|
    {
      SubsetSize(RunningOf(b, t), RunningOf(a, t));
    }
  }

  lemma OtherKeeps(w: System, limits: Limits, step: Step)
    requires Inv(w, limits) && !step.StartScan?
    ensures Inv(Moved(w, limits, Other(step)), limits)
  {
    OtherOnlyFewer(w.s, limits, step);
    FewerCounts(w.s.scans, ScanRuns.Apply(w.s, limits, step).scans, limits);
  }

  /** One more running scan of a tenant for which there is a place. */
  lemma OneMoreWithin(scans: map<ScanId, Scan>, limits: Limits, id: ScanId, scan: Scan)
    requires WithinLimits(scans, limits) && id in scans && scan.tenant == scans[id].tenant && !Full(scans, limits, scan.tenant)
    ensures WithinLimits(scans[id := scan], limits)
  {
    var after := scans[id := scan];
    SubsetSize(RunningIds(after), RunningIds(scans) + {id});
    forall t: Tenant
      ensures |RunningOf(after, t)| <= limits.Of(t)
    {
      if t == scan.tenant {
        SubsetSize(RunningOf(after, t), RunningOf(scans, t) + {id});
      } else {
        SubsetSize(RunningOf(after, t), RunningOf(scans, t));
      }
    }
  }

  lemma WriteKeeps(w: System, limits: Limits)
    requires Inv(w, limits) && Enabled(w, WriteScan)
    ensures Inv(Moved(w, limits, WriteScan), limits)
  {
    var r := w.reading.value;
    var was := w.s.scans[r.id];
    var now := SplitStart(r.scan, was, r.inactive, r.full);
    if now.status.Running? && !was.status.Running? {
      OneMoreWithin(w.s.scans, limits, r.id, now);
    } else {
      FewerCounts(w.s.scans, w.s.scans[r.id := now], limits);
    }
  }

  lemma {:induction false} RunKeeps(w: System, limits: Limits, moves: seq<Move>)
    requires Inv(w, limits) && IsRun(w, limits, moves)
    ensures Inv(Reached(w, limits, moves), limits)
    decreases |moves|
  {
    if moves != [] {
      match moves[0] {
        case Other(step) => OtherKeeps(w, limits, step);
        case ReadScan(_, _) =>
        case WriteScan => WriteKeeps(w, limits);
      }
      RunKeeps(Moved(w, limits, moves[0]), limits, moves[1..]);
    }
  }

  /**
   With every start split into its read and its write, and cancels, results, advances and all other tasks in
   between, neither limit is ever exceeded. What is written may revive a scan that was over; it never takes a
   place that is not there.
   */
  lemma NeverTooManySplitStarts(limits: Limits, moves: seq<Move>)
    requires IsRun(System(START, None), limits, moves)
    ensures var scans := Reached(System(START, None), limits, moves).s.scans;
            && |RunningIds(scans)| <= limits.platform
            && forall t: Tenant :: |RunningOf(scans, t)| <= limits.Of(t)
  {
    assert RunningIds(START.scans) == {};
    assert forall t: Tenant :: RunningOf(START.scans, t) == {};
    RunKeeps(System(START, None), limits, moves);
  }
}
