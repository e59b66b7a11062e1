/**
 From a sensor's raw output to the inventory: whose silence about an asset counts
 (workers/asm_sensors/base.py, backend/app/scans/orchestrator.py).
 */
module StageResults {
  import opened Prelude
  import opened Assets
  import opened Findings
  import opened Cascade
  import opened IngestRules
  import opened CoverageRules
  import opened IngestRuns
  import opened Ingest

  datatype RunStatus = Completed | Partial | Failed

  datatype Process = Process(ok: bool, clipped: bool)

  datatype Raw = Raw(errors: seq<string>, process: Option<Process>, clipped: bool, files: set<string>)

  const RULES := "asm-rules"

  /** Nothing suggests that output is missing: no error, a process that ended well, and nothing cut off. */
  predicate Clean(raw: Raw) {
    && raw.errors == []
    && (raw.process.Some? ==> raw.process.value.ok && !(raw.process.value.clipped && raw.files == {}))
    && !raw.clipped
  }

  /** What a sensor reports: completed exactly for a clean run, and coverage only then. */
  method Report(raw: Raw, observations: nat, coverage: seq<Covered>) returns (status: RunStatus, kept: seq<Covered>)
    ensures status.Completed? <==> Clean(raw)
    ensures status.Failed? <==> !Clean(raw) && observations == 0
    ensures kept == if Clean(raw) then coverage else []
    ensures raw.errors != [] || raw.clipped ==> kept == [] && !status.Completed?
    ensures raw.process.Some? && (!raw.process.value.ok || (raw.process.value.clipped && raw.files == {})) ==> kept == [] && !status.Completed?
    ensures raw.errors == [] && !raw.clipped && (raw.process.Some? ==> raw.process.value.ok && (raw.process.value.clipped ==> raw.files != {})) ==>
              kept == coverage && status.Completed?
  {
    status := if raw.errors != [] then Partial else Completed;
    if raw.process.Some? && !raw.process.value.ok {
      status := Partial;
    }
    if raw.clipped || (raw.process.Some? && raw.process.value.clipped && raw.files == {}) {
      status := Partial;
    }
    if status.Partial? && observations == 0 {
      status := Failed;
    }
    kept := coverage;
    if !status.Completed? {
      kept := [];
    }
  }

  /** What the platform's own rules report: findings of their source, and coverage of findings only. */
  predicate FromRules(b: Batch) {
    b.source == RULES && !b.historical && OnlyFindings(b.coverage) && ObservedKeys(b.sightings) == {}
  }

  /** What of a result is taken at its word: the coverage only of a completed run. */
  function Trusted(status: RunStatus, result: Batch): Batch {
    if status.Completed? then result else result.(coverage := [])
  }

  /** The result was taken in, and then, unless it is historical, what the platform's own rules say. */
  ghost predicate Completes(before: Tables, after: Tables, status: RunStatus, result: Batch, rules: Batch, settings: Settings, now: Time) {
    if result.historical || rules.coverage == [] then Ingested(before, after, Trusted(status, result), settings, now)
    else exists mid :: Ingested(before, mid, Trusted(status, result), settings, now) && Ingested(mid, after, rules, settings, now)
  }

  /** Take a stage's result into the inventory; a failed one changes nothing. */
  method CompleteStage(inventory: Ingestor, status: RunStatus, result: Batch, rules: Batch, settings: Settings, now: Time)
    requires FromRules(rules)
    modifies inventory
    ensures if status.Failed? then inventory.View() == old(inventory.View())
            else Completes(old(inventory.View()), inventory.View(), status, result, rules, settings, now)
  {
    if status.Failed? {
      return;
    }
    var trusted := result;
    if !status.Completed? && result.coverage != [] {
      trusted := result.(coverage := []);
    }
    ghost var first := inventory.IngestRun(trusted, settings, now);
    RunIsIngested(first);
    if !result.historical && rules.coverage != [] {
      ghost var second := inventory.IngestRun(rules, settings, now);
      RunIsIngested(second);
    }
  }

  /**
   A run not marked completed makes nothing inactive, counts no miss, and resolves no finding except those of
   the platform's own rules; a historical one does not even touch liveness.
   */
  lemma IncompleteRunsVouchForNothing(before: Tables, after: Tables, status: RunStatus, result: Batch, rules: Batch, settings: Settings, now: Time)
    requires !status.Completed? && FromRules(rules) && Completes(before, after, status, result, rules, settings, now)
    ensures NothingLost(before.assets, after.assets)
    ensures NoRelationMiss(before.rels, after.rels)
    ensures ResolvedOnlyOf(before.book, after.book, RULES)
    ensures result.historical ==> NothingResolved(before.book, after.book) && SameLiveness(before.assets, after.assets)
  {
    var trusted := Trusted(status, result);
    if result.historical || rules.coverage == [] {
      WithoutCoverageNothingIsLost(before, after, trusted, settings, now);
    } else {
      var mid :| Ingested(before, mid, trusted, settings, now) && Ingested(mid, after, rules, settings, now);
      WithoutCoverageNothingIsLost(before, mid, trusted, settings, now);
      WithoutCoverageNothingIsLost(mid, after, rules, settings, now);
      NothingLostTrans(before.assets, mid.assets, after.assets);
      NoRelationMissTrans(before.rels, mid.rels, after.rels);
    }
  }

  /** What a live result observed is present after the stage is completed, whatever the rules say. */
  lemma ObservedAreThere(before: Tables, after: Tables, status: RunStatus, result: Batch, rules: Batch, settings: Settings, now: Time)
    requires !result.historical && FromRules(rules) && Completes(before, after, status, result, rules, settings, now)
    ensures Present(after.assets, ObservedKeys(result.sightings), now)
  {
    var trusted := Trusted(status, result);
    if rules.coverage == [] {
      ObservedNeverLost(before, after, trusted, settings, now);
    } else {
      var mid :| Ingested(before, mid, trusted, settings, now) && Ingested(mid, after, rules, settings, now);
      ObservedNeverLost(before, mid, trusted, settings, now);
      WithoutCoverageNothingIsLost(mid, after, rules, settings, now);
    }
  }
}
