/**
 Whole runs and sequences of runs: what a run did, how often it missed whom, and what every counter says
 (backend/app/assets/ingest.py).
 */
module IngestRuns {
  import opened Prelude
  import opened Assets
  import opened Findings
  import opened Cascade
  import opened IngestRules
  import opened CoverageRules

  /** What was seen in the run the coverage belongs to. */
  datatype Reported = Reported(keys: set<Key>, rels: set<RelationKey>, findings: set<FindingKey>)

  /** What a coverage is worked off in: a listing, one chunk of the parents of a relation item, or a filter of findings. */
  datatype Part =
    | Listing(listed: seq<Key>)
    | Chunk(parents: set<Key>, kind: RelationType, children: set<AssetType>, limit: Option<PortLimit>)
    | Issues(coverage: Coverage)

  function PartsOf(c: Covered): seq<Part> {
    match c
    case Liveness(listed) => [Listing(listed)]
    case RelationsOf(chunks, kind, children, limit) => seq(|chunks|, i requires 0 <= i < |chunks| => Chunk(chunks[i], kind, children, limit))
    case FindingsOf(cov) => [Issues(cov)]
  }

  function Parts(coverage: seq<Covered>): seq<Part> {
    if coverage == [] then [] else Parts(coverage[..|coverage| - 1]) + PartsOf(coverage[|coverage| - 1])
  }

  /** The relations a part counts as missed, in these tables. */
  function PartRows(p: Part, t: Tables, seen: set<RelationKey>): set<RelationKey> {
    match p
    case Chunk(parents, kind, children, limit) => CoveredRows(t.assets, t.rels, seen, parents, kind, children, limit)
    case _ => {}
  }

  function FindingsCovered(before: Tables, cov: Coverage, source: string, seen: Reported, settings: Settings, now: Time): Tables {
    before.(book := ResolveUnobserved(before.book, source, cov.(assets := cov.assets * before.assets.Keys), seen.findings,
                                      FindingThreshold(settings), now))
  }

  /** The effect of one part. */
  ghost predicate OnePart(p: Part, before: Tables, after: Tables, source: string, seen: Reported, settings: Settings, now: Time) {
    match p
    case Listing(listed) => Listed(before, after, seen.keys, listed, settings, now)
    case Chunk(_, _, _, _) => Rowed(before, after, seen.keys, PartRows(p, before, seen.rels), PartRows(p, before, seen.rels), settings, now)
    case Issues(cov) => after == FindingsCovered(before, cov, source, seen, settings, now)
  }

  /** What the n-th part did, between the tables before and after it. */
  ghost predicate PartDone(parts: seq<Part>, trace: seq<Tables>, n: nat, source: string, seen: Reported, settings: Settings, now: Time)
    requires n < |parts| && n + 1 < |trace|
  {
    OnePart(parts[n], trace[n], trace[n + 1], source, seen, settings, now)
  }

  /** The tables before and after every part. */
  ghost predicate Traced(parts: seq<Part>, trace: seq<Tables>, source: string, seen: Reported, settings: Settings, now: Time) {
    && |trace| == |parts| + 1
    && forall n: nat {:trigger PartDone(parts, trace, n, source, seen, settings, now)} :: n < |parts| ==>
        PartDone(parts, trace, n, source, seen, settings, now)
  }

  lemma TracedOneMore(parts: seq<Part>, trace: seq<Tables>, p: Part, after: Tables, source: string, seen: Reported, settings: Settings, now: Time)
    requires Traced(parts, trace, source, seen, settings, now) && OnePart(p, trace[|parts|], after, source, seen, settings, now)
    ensures Traced(parts + [p], trace + [after], source, seen, settings, now)
  {
    var more, later := parts + [p], trace + [after];
    forall n: nat | n < |more|
      ensures PartDone(more, later, n, source, seen, settings, now)
    {
      if n < |parts| {
        assert PartDone(parts, trace, n, source, seen, settings, now);
      }
    }
  }

  lemma PartsOneMore(coverage: seq<Covered>, n: nat)
    requires n < |coverage|
    ensures Parts(coverage[..n + 1]) == Parts(coverage[..n]) + PartsOf(coverage[n])
  {
    assert coverage[..n + 1][..n] == coverage[..n];
  }

  // -------------------------------------------------------------- a whole run

  /** The tables once everything a run reports is recorded. */
  function Recorded(before: Tables, batch: Batch, now: Time): Tables {
    var sighted := SightAll(before.assets, batch.sightings, batch.historical, now);
    Tables(sighted,
           RelateAll(before.rels, sighted, batch.relations, batch.historical, now),
           FileAll(before.book, sighted, batch.issues, batch.source, batch.historical, now),
           {})
  }

  function SeenIn(before: Tables, batch: Batch, now: Time): Reported {
    var sighted := SightAll(before.assets, batch.sightings, batch.historical, now);
    Reported(ObservedKeys(batch.sightings), RelatedKeys(sighted, batch.relations), FiledKeys(sighted, batch.issues, batch.source))
  }

  /** A run, with the tables it began on and the tables before and after each part of its coverage. */
  datatype Run = Run(before: Tables, batch: Batch, settings: Settings, now: Time, trace: seq<Tables>) {
    function Begun(): Tables {
      Recorded(before, batch, now)
    }

    function Seen(): Reported {
      SeenIn(before, batch, now)
    }

    function Todo(): seq<Part> {
      Parts(batch.coverage)
    }

    function After(): Tables {
      if trace == [] then before else trace[|trace| - 1]
    }
  }

  /** What holds of what the coverage left: nothing observed changed, and what is gone went for a cause and has no open finding. */
  ghost predicate Soundly(begun: Tables, after: Tables, observed: set<Key>, source: string, settings: Settings, now: Time) {
    && Eroded(begun.assets, after.assets, observed, after.gone, now)
    && BookEroded(begun.book, after.book, after.gone, source)
    && Settled(after.assets, after.book, after.gone)
    && Within(begun.assets, after.assets, settings)
    && OnlyWeaker(begun.rels, after.rels)
    && Justified(begun.assets, after.assets, begun.rels, after.rels, settings, after.gone)
    && Cleared(begun.rels, after.rels, after.assets, observed)
    && TakenAlong(begun.rels, after.rels, after.assets, observed, after.gone, RelationThreshold(settings))
  }

  /** The run was taken in: what it reports is recorded, then each part of its coverage took effect. */
  ghost predicate IsRun(r: Run) {
    && Traced(r.Todo(), r.trace, r.batch.source, r.Seen(), r.settings, r.now)
    && r.trace[0] == r.Begun()
    && Soundly(r.Begun(), r.After(), r.Seen().keys, r.batch.source, r.settings, r.now)
  }

  ghost predicate Ingested(before: Tables, after: Tables, batch: Batch, settings: Settings, now: Time) {
    exists trace :: Ends(Run(before, batch, settings, now, trace), after)
  }

  ghost predicate Ends(r: Run, after: Tables) {
    IsRun(r) && r.After() == after
  }

  // ----------------------------------------------------- along a run's parts

  lemma {:induction false} BooksKept(parts: seq<Part>, trace: seq<Tables>, source: string, seen: Reported, settings: Settings, now: Time, n: nat)
    requires Traced(parts, trace, source, seen, settings, now) && n <= |parts| && BookOk(trace[0].book)
    ensures BookOk(trace[n].book)
  {
    if n > 0 {
      BooksKept(parts, trace, source, seen, settings, now, n - 1);
      assert PartDone(parts, trace, n - 1, source, seen, settings, now);
    }
  }

  lemma {:induction false} OnlyFindingsTrace(parts: seq<Part>, trace: seq<Tables>, source: string, seen: Reported, settings: Settings, now: Time, n: nat)
    requires Traced(parts, trace, source, seen, settings, now) && n <= |parts| && forall i :: 0 <= i < |parts| ==> parts[i].Issues?
    ensures trace[n] == trace[0].(book := trace[n].book)
  {
    if n > 0 {
      OnlyFindingsTrace(parts, trace, source, seen, settings, now, n - 1);
      assert PartDone(parts, trace, n - 1, source, seen, settings, now);
    }
  }

  lemma {:induction false} OnlyFindingsParts(coverage: seq<Covered>)
    requires OnlyFindings(coverage)
    ensures forall i :: 0 <= i < |Parts(coverage)| ==> Parts(coverage)[i].Issues?
    ensures coverage == [] ==> Parts(coverage) == []
  {
    if coverage != [] {
      OnlyFindingsParts(coverage[..|coverage| - 1]);
    }
  }

  /**
   A run that covers no assets and no relations makes nothing inactive, counts no miss and resolves only
   findings of its own source; one that covers nothing resolves nothing.
   */
  lemma WithoutCoverageNothingIsLost(before: Tables, after: Tables, batch: Batch, settings: Settings, now: Time)
    requires Ingested(before, after, batch, settings, now) && OnlyFindings(batch.coverage)
    ensures NothingLost(before.assets, after.assets)
    ensures NoRelationMiss(before.rels, after.rels)
    ensures ResolvedOnlyOf(before.book, after.book, batch.source)
    ensures batch.coverage == [] ==> NothingResolved(before.book, after.book)
    ensures batch.historical || ObservedKeys(batch.sightings) == {} ==> SameLiveness(before.assets, after.assets)
  {
    var trace :| Ends(Run(before, batch, settings, now, trace), after);
    var r := Run(before, batch, settings, now, trace);
    var begun := r.Begun();
    OnlyFindingsParts(batch.coverage);
    OnlyFindingsTrace(r.Todo(), trace, batch.source, r.Seen(), settings, now, |r.Todo()|);
    SightAllMeans(before.assets, batch.sightings, batch.historical, now);
    RelateAllMeans(before.rels, begun.assets, batch.relations, batch.historical, now);
    FileAllMeans(before.book, begun.assets, batch.issues, batch.source, batch.historical, now);
    forall k | k in begun.book
      ensures BookRow(begun.book, after.book, after.gone, batch.source, k)
    {
    }
  }

  /**
   Whatever a run's coverage says: what it observed and was active stays active, what it observed live is
   present with a clean counter, nothing it did not observe live comes back, and what went inactive was missed
   often enough, belonged to something gone, or left the attack surface.
   */
  lemma ObservedNeverLost(before: Tables, after: Tables, batch: Batch, settings: Settings, now: Time)
    requires Ingested(before, after, batch, settings, now)
    ensures forall k :: k in ObservedKeys(batch.sightings) && Active(before.assets, k) ==>
              Active(after.assets, k) && after.assets[k].missed <= before.assets[k].missed
    ensures !batch.historical ==> Present(after.assets, ObservedKeys(batch.sightings), now)
    ensures BroughtBack(before.assets, after.assets, if batch.historical then {} else ObservedKeys(batch.sightings))
    ensures forall k :: Active(before.assets, k) && !Active(after.assets, k) ==>
              && k !in ObservedKeys(batch.sightings)
              && NoOpenFinding(after.book, k)
              && Cause(Recorded(before, batch, now).assets, after.assets, Recorded(before, batch, now).rels, after.rels, settings, after.gone, k)
  {
    var begun := Recorded(before, batch, now);
    var mid := begun.assets;
    SightAllMeans(before.assets, batch.sightings, batch.historical, now);
    forall k | k in mid
      ensures Erodes(mid, after.assets, ObservedKeys(batch.sightings), after.gone, now, k)
      ensures k in after.gone ==> Cause(begun.assets, after.assets, begun.rels, after.rels, settings, after.gone, k)
    {
    }
  }

  lemma RunIsIngested(r: Run)
    requires IsRun(r)
    ensures Ingested(r.before, r.After(), r.batch, r.settings, r.now)
  {
    assert r == Run(r.before, r.batch, r.settings, r.now, r.trace);
    assert Ends(Run(r.before, r.batch, r.settings, r.now, r.trace), r.After());
  }

  /** Every run keeps the lifecycle of every finding. */
  lemma RunKeepsBook(before: Tables, after: Tables, batch: Batch, settings: Settings, now: Time)
    requires Ingested(before, after, batch, settings, now) && BookOk(before.book)
    ensures BookOk(after.book)
  {
    var trace :| Ends(Run(before, batch, settings, now, trace), after);
    var r := Run(before, batch, settings, now, trace);
    FileAllMeans(before.book, r.Begun().assets, batch.issues, batch.source, batch.historical, now);
    BooksKept(r.Todo(), trace, batch.source, r.Seen(), settings, now, |r.Todo()|);
  }

  // ------------------------------------------------ how often a run missed whom

  /** How often a part misses an asset: once for each time it is listed, or for each covered relation that leads to it. */
  function PartMisses(p: Part, t: Tables, seen: Reported, k: Key): nat {
    match p
    case Listing(listed) => if k in seen.keys then 0 else Times(listed, k)
    case Chunk(_, _, _, _) => MissesBy(PartRows(p, t, seen.rels), seen.keys, k)
    case Issues(_) => 0
  }

  function MissesUpTo(parts: seq<Part>, trace: seq<Tables>, seen: Reported, k: Key, n: nat): nat
    requires n <= |parts| && n <= |trace|
  {
    if n == 0 then 0 else MissesUpTo(parts, trace, seen, k, n - 1) + PartMisses(parts[n - 1], trace[n - 1], seen, k)
  }

  /** How often a run misses an asset. */
  function RunMisses(r: Run, k: Key): nat
    requires |r.Todo()| <= |r.trace|
  {
    MissesUpTo(r.Todo(), r.trace, r.Seen(), k, |r.Todo()|)
  }

  lemma PartCounts(p: Part, before: Tables, after: Tables, source: string, seen: Reported, settings: Settings, now: Time, k: Key)
    requires OnePart(p, before, after, source, seen, settings, now) && k in before.assets
    ensures k in after.assets && SameTraits(before.assets[k], after.assets[k])
    ensures before.assets[k].missed <= after.assets[k].missed <= before.assets[k].missed + PartMisses(p, before, seen, k)
    ensures Active(after.assets, k) ==> Active(before.assets, k) && after.assets[k].missed == before.assets[k].missed + PartMisses(p, before, seen, k)
    ensures before.gone <= after.gone && OnlyWeaker(before.rels, after.rels)
  {
    if !p.Issues? {
      var done := if p.Chunk? then PartRows(p, before, seen.rels) else {};
      var times := if p.Chunk? then RowTimes(before.assets, seen.keys, done) else LivenessTimes(before.assets, seen.keys, p.listed);
      assert MissedAt(before.assets, after.assets, times, k);
      forall r | Linked(after.rels, r)
        ensures Linked(before.rels, r)
      {
        assert RowDone(before.rels, after.rels, done, after.gone, RelationThreshold(settings), r);
      }
    }
  }

  lemma {:induction false} CountedUpTo(parts: seq<Part>, trace: seq<Tables>, source: string, seen: Reported, settings: Settings, now: Time, k: Key, n: nat)
    requires Traced(parts, trace, source, seen, settings, now) && n <= |parts| && k in trace[0].assets
    ensures k in trace[n].assets && SameTraits(trace[0].assets[k], trace[n].assets[k])
    ensures trace[0].assets[k].missed <= trace[n].assets[k].missed <= trace[0].assets[k].missed + MissesUpTo(parts, trace, seen, k, n)
    ensures Active(trace[n].assets, k) ==>
              Active(trace[0].assets, k) && trace[n].assets[k].missed == trace[0].assets[k].missed + MissesUpTo(parts, trace, seen, k, n)
  {
    if n > 0 {
      CountedUpTo(parts, trace, source, seen, settings, now, k, n - 1);
      assert PartDone(parts, trace, n - 1, source, seen, settings, now);
      PartCounts(parts[n - 1], trace[n - 1], trace[n], source, seen, settings, now, k);
    }
  }

  /**
   What one run does to a counter: it starts afresh if the asset is new or was observed live, and rises by the
   run's misses if the asset is active after it, and by no more if it is not.
   */
  lemma OneRunCounts(r: Run, k: Key)
    requires IsRun(r) && k in r.After().assets
    ensures var base := if Refreshes(r.before.assets, r.batch, k) then 0 else r.before.assets[k].missed;
            && base <= r.After().assets[k].missed <= base + RunMisses(r, k)
            && (Active(r.After().assets, k) ==> r.After().assets[k].missed == base + RunMisses(r, k))
    ensures Active(r.After().assets, k) && !Refreshes(r.before.assets, r.batch, k) ==> Active(r.before.assets, k)
  {
    assert k in r.trace[0].assets;
    CountedUpTo(r.Todo(), r.trace, r.batch.source, r.Seen(), r.settings, r.now, k, |r.Todo()|);
    SightedCounter(r.before.assets, r.batch.sightings, r.batch.historical, r.now, k);
    SightAllMeans(r.before.assets, r.batch.sightings, r.batch.historical, r.now);
  }

  /**
   An asset that is active when a run's coverage begins, and that neither follows an owner nor leaves the surface,
   goes exactly when the run misses it and its misses make the threshold, however high its counter stood before.
   */
  lemma GoesExactly(r: Run, k: Key)
    requires IsRun(r) && Active(r.Begun().assets, k)
    requires !OwnedByGone(r.Begun().rels, r.After().gone, k) && !OffSurface(r.After().assets, r.Begun().rels, r.After().rels, k)
    ensures k in r.After().assets
    ensures !Active(r.After().assets, k) <==>
            RunMisses(r, k) > 0 && r.Begun().assets[k].missed + RunMisses(r, k) >= AssetThreshold(r.settings, k.kind)
  {
    var begun, after := r.Begun(), r.After();
    CountedUpTo(r.Todo(), r.trace, r.batch.source, r.Seen(), r.settings, r.now, k, |r.Todo()|);
    assert Erodes(begun.assets, after.assets, r.Seen().keys, after.gone, r.now, k);
    assert WithinAt(begun.assets, after.assets, r.settings, k);
    assert k in after.gone ==> Cause(begun.assets, after.assets, begun.rels, after.rels, r.settings, after.gone, k);
  }

  /** Nothing owns an address, so what makes it go is its misses or the end of its last name. */
  lemma AddressFate(begun: Tables, after: Tables, observed: set<Key>, source: string, settings: Settings, now: Time, misses: nat, k: Key)
    requires Soundly(begun, after, observed, source, settings, now)
    requires ByNameOnly(begun.assets, observed, k) && !LedTo(begun.rels, k, HostedOn)
    requires k in after.assets && begun.assets[k].missed <= after.assets[k].missed <= begun.assets[k].missed + misses
    requires Active(after.assets, k) ==> after.assets[k].missed == begun.assets[k].missed + misses
    ensures !Active(after.assets, k) <==>
            || (misses > 0 && begun.assets[k].missed + misses >= AssetThreshold(settings, k.kind))
            || (LedTo(begun.rels, k, ResolvesTo) && !LedTo(after.rels, k, ResolvesTo))
  {
    assert Erodes(begun.assets, after.assets, observed, after.gone, now, k);
    assert WithinAt(begun.assets, after.assets, settings, k);
    if Active(after.assets, k) {
      assert !Abandoned(begun.rels, after.rels, k);
    } else {
      assert Cause(begun.assets, after.assets, begun.rels, after.rels, settings, after.gone, k);
      assert !OwnedByGone(begun.rels, after.gone, k);
    }
  }

  /**
   An address known only by its names, not observed and hosting nothing when the coverage begins, goes exactly when
   it is missed often enough or when the last name that pointed at it ends; nothing that pointed at it stays.
   */
  lemma AddressGoesExactly(r: Run, k: Key)
    requires IsRun(r) && ByNameOnly(r.Begun().assets, r.Seen().keys, k) && !LedTo(r.Begun().rels, k, HostedOn)
    ensures k in r.After().assets
    ensures !Active(r.After().assets, k) <==>
            || (RunMisses(r, k) > 0 && r.Begun().assets[k].missed + RunMisses(r, k) >= AssetThreshold(r.settings, k.kind))
            || (LedTo(r.Begun().rels, k, ResolvesTo) && !LedTo(r.After().rels, k, ResolvesTo))
  {
    CountedUpTo(r.Todo(), r.trace, r.batch.source, r.Seen(), r.settings, r.now, k, |r.Todo()|);
    AddressFate(r.Begun(), r.After(), r.Seen().keys, r.batch.source, r.settings, r.now, RunMisses(r, k), k);
  }

  /**
   Whoever was at its threshold already, as after the threshold was lowered, goes at its next counted miss; a run
   that does not miss it leaves it, unless it follows an owner or leaves the surface.
   */
  lemma LoweredThreshold(r: Run, k: Key)
    requires IsRun(r) && Active(r.before.assets, k) && r.before.assets[k].missed >= AssetThreshold(r.settings, k.kind)
    requires !Refreshes(r.before.assets, r.batch, k)
    ensures Active(r.After().assets, k) ==> RunMisses(r, k) == 0 && r.After().assets[k].missed == r.before.assets[k].missed
    ensures RunMisses(r, k) == 0 && !OwnedByGone(r.Begun().rels, r.After().gone, k) && !OffSurface(r.After().assets, r.Begun().rels, r.After().rels, k) ==>
              Active(r.After().assets, k)
  {
    SightAllMeans(r.before.assets, r.batch.sightings, r.batch.historical, r.now);
    SightedCounter(r.before.assets, r.batch.sightings, r.batch.historical, r.now, k);
    if Active(r.After().assets, k) {
      OneRunCounts(r, k);
      assert WithinAt(r.Begun().assets, r.After().assets, r.settings, k);
    } else if !OwnedByGone(r.Begun().rels, r.After().gone, k) && !OffSurface(r.After().assets, r.Begun().rels, r.After().rels, k) {
      GoesExactly(r, k);
    }
  }

  /** With unchanged thresholds no active asset is ever at its own. */
  lemma RunKeepsBelow(r: Run)
    requires IsRun(r) && BelowThreshold(r.before.assets, r.settings)
    ensures BelowThreshold(r.After().assets, r.settings)
  {
    forall k | Active(r.After().assets, k)
      ensures r.After().assets[k].missed < AssetThreshold(r.settings, k.kind)
    {
      OneRunCounts(r, k);
      SightedCounter(r.before.assets, r.batch.sightings, r.batch.historical, r.now, k);
      assert WithinAt(r.Begun().assets, r.After().assets, r.settings, k);
    }
  }

  lemma RunEffects(r: Run)
    requires IsRun(r)
    ensures BookOk(r.before.book) ==> BookOk(r.After().book)
    ensures BelowThreshold(r.before.assets, r.settings) ==> BelowThreshold(r.After().assets, r.settings)
  {
    RunIsIngested(r);
    if BookOk(r.before.book) {
      RunKeepsBook(r.before, r.After(), r.batch, r.settings, r.now);
    }
    if BelowThreshold(r.before.assets, r.settings) {
      RunKeepsBelow(r);
    }
  }

  // ------------------------------------------------------- sequences of runs

  /** Runs one after the other, each on the tables the one before it left. */
  ghost predicate History(start: Tables, runs: seq<Run>) {
    runs == [] ||
    (var init, last := runs[..|runs| - 1], runs[|runs| - 1];
     History(start, init) && IsRun(last) && last.before == Now(start, init))
  }

  function Now(start: Tables, runs: seq<Run>): Tables {
    if runs == [] then start else runs[|runs| - 1].After()
  }

  /** Misses since the asset was last seen live or discovered; what the counter stood at if that was before these runs. */
  ghost function MissesSince(start: Tables, runs: seq<Run>, k: Key): nat {
    if runs == [] then if k in start.assets then start.assets[k].missed else 0
    else
      var last := runs[|runs| - 1];
      (if |last.Todo()| <= |last.trace| then RunMisses(last, k) else 0)
      + if Refreshes(last.before.assets, last.batch, k) then 0 else MissesSince(start, runs[..|runs| - 1], k)
  }

  /**
   After any sequence of runs, with whatever thresholds, the counter of an active asset is exactly the misses
   the runs counted since it was last seen live or discovered; that of an inactive one is at most that.
   */
  lemma {:induction false} CountersAreExact(start: Tables, runs: seq<Run>, k: Key)
    requires History(start, runs) && k in Now(start, runs).assets
    ensures Now(start, runs).assets[k].missed <= MissesSince(start, runs, k)
    ensures Active(Now(start, runs).assets, k) ==> Now(start, runs).assets[k].missed == MissesSince(start, runs, k)
  {
    if runs != [] {
      var init, last := runs[..|runs| - 1], runs[|runs| - 1];
      OneRunCounts(last, k);
      if !Refreshes(last.before.assets, last.batch, k) {
        CountersAreExact(start, init, k);
      }
    }
  }

  /** Runs without coverage of assets or relations lose nothing, and historical ones leave all liveness alone. */
  lemma {:induction false} HistoryWithoutCoverage(start: Tables, runs: seq<Run>)
    requires History(start, runs) && forall n :: 0 <= n < |runs| ==> OnlyFindings(runs[n].batch.coverage)
    ensures NothingLost(start.assets, Now(start, runs).assets)
    ensures (forall n :: 0 <= n < |runs| ==> runs[n].batch.historical) ==> SameLiveness(start.assets, Now(start, runs).assets)
  {
    if runs != [] {
      var init, last := runs[..|runs| - 1], runs[|runs| - 1];
      HistoryWithoutCoverage(start, init);
      RunIsIngested(last);
      WithoutCoverageNothingIsLost(last.before, last.After(), last.batch, last.settings, last.now);
      NothingLostTrans(start.assets, last.before.assets, last.After().assets);
    }
  }

  /** Over any sequence of runs the findings keep their lifecycle. */
  lemma {:induction false} HistoryKeepsBook(start: Tables, runs: seq<Run>)
    requires History(start, runs) && BookOk(start.book)
    ensures BookOk(Now(start, runs).book)
  {
    if runs != [] {
      HistoryKeepsBook(start, runs[..|runs| - 1]);
      RunEffects(runs[|runs| - 1]);
    }
  }

  /** The runs are those of the batches, in order. */
  predicate AreRunsOf(runs: seq<Run>, batches: seq<(Batch, Settings, Time)>) {
    |runs| == |batches| && forall n :: 0 <= n < |runs| ==> (runs[n].batch, runs[n].settings, runs[n].now) == batches[n]
  }

  lemma RunsOneMore(runs: seq<Run>, batches: seq<(Batch, Settings, Time)>, n: nat, run: Run)
    requires n < |batches| && AreRunsOf(runs, batches[..n]) && (run.batch, run.settings, run.now) == batches[n]
    ensures AreRunsOf(runs + [run], batches[..n + 1])
  {
  }

  /** Every counter of an active asset is exactly its misses since, and no counter is higher. */
  ghost predicate CountedSince(start: Tables, runs: seq<Run>, assets: Inventory) {
    && (forall k :: Active(assets, k) ==> assets[k].missed == MissesSince(start, runs, k))
    && (forall k :: k in assets ==> assets[k].missed <= MissesSince(start, runs, k))
  }

  lemma HistoryEffects(start: Tables, runs: seq<Run>)
    requires History(start, runs)
    ensures CountedSince(start, runs, Now(start, runs).assets)
    ensures BookOk(start.book) ==> BookOk(Now(start, runs).book)
  {
    forall k | k in Now(start, runs).assets {
      CountersAreExact(start, runs, k);
    }
    if BookOk(start.book) {
      HistoryKeepsBook(start, runs);
    }
  }

  lemma HistoryOneMore(start: Tables, runs: seq<Run>, r: Run)
    requires History(start, runs) && IsRun(r) && r.before == Now(start, runs)
    ensures History(start, runs + [r]) && Now(start, runs + [r]) == r.After()
  {
    assert (runs + [r])[..|runs|] == runs;
  }

  lemma NoRelationMissTrans(rels: Relations, mid: Relations, after: Relations)
    requires NoRelationMiss(rels, mid) && NoRelationMiss(mid, after)
    ensures NoRelationMiss(rels, after)
  {
  }

  lemma NothingLostTrans(assets: Inventory, mid: Inventory, after: Inventory)
    requires NothingLost(assets, mid) && NothingLost(mid, after)
    ensures NothingLost(assets, after)
  {
  }
}
