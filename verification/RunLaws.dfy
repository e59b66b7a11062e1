/**
 When a whole run ends a relation or resolves a finding, told from what the run looked at
 (backend/app/assets/ingest.py).
 */
module RunLaws {
  import opened Prelude
  import opened Assets
  import opened Findings
  import opened Cascade
  import opened IngestRules
  import opened CoverageRules
  import opened IngestRuns

  // ----------------------------------------------------------------- relations

  /** The part looked where this relation ends: at its source, for its kind and type of target, and at its port. */
  predicate LookedAlong(p: Part, assets: Inventory, k: RelationKey) {
    && p.Chunk? && k.source in assets && k.target in assets
    && k.source in p.parents && k.kind == p.kind && k.target.kind in p.children
    && (p.limit.Some? ==>
          && assets[k.target].port.Some?
          && (assets[k.source].cdn && p.limit.value.cdnSpec.Some? ==> assets[k.target].port.value in p.limit.value.cdnSpec.value)
          && (!assets[k.source].cdn || p.limit.value.cdnSpec.None? ==> assets[k.target].port.value in p.limit.value.spec))
  }

  /** How many of the first parts looked along a relation. */
  function TimesAlong(parts: seq<Part>, assets: Inventory, k: RelationKey, n: nat): nat
    requires n <= |parts|
  {
    if n == 0 then 0 else TimesAlong(parts, assets, k, n - 1) + if LookedAlong(parts[n - 1], assets, k) then 1 else 0
  }

  lemma SameTraitsLook(p: Part, assets: Inventory, later: Inventory, k: RelationKey)
    requires k.source in assets <==> k.source in later
    requires k.target in assets <==> k.target in later
    requires k.source in assets ==> SameTraits(assets[k.source], later[k.source])
    requires k.target in assets ==> SameTraits(assets[k.target], later[k.target])
    ensures LookedAlong(p, later, k) == LookedAlong(p, assets, k)
  {
  }

  lemma RowsLooked(p: Part, t: Tables, seen: set<RelationKey>, k: RelationKey)
    requires Linked(t.rels, k)
    ensures k in PartRows(p, t, seen) <==> k !in seen && LookedAlong(p, t.assets, k)
  {
  }

  lemma PartRelation(p: Part, before: Tables, after: Tables, source: string, seen: Reported, settings: Settings, now: Time, k: RelationKey)
    requires OnePart(p, before, after, source, seen, settings, now) && k in before.rels
    ensures before.gone <= after.gone && after.assets.Keys == before.assets.Keys && k in after.rels
    ensures var m := if Linked(before.rels, k) && k !in seen.rels && LookedAlong(p, before.assets, k) then 1 else 0;
            && after.rels[k].missed == before.rels[k].missed + m
            && (Linked(after.rels, k) ==> Linked(before.rels, k) && !(m == 1 && after.rels[k].missed >= RelationThreshold(settings)))
            && (Linked(before.rels, k) && !Linked(after.rels, k) ==>
                (m == 1 && after.rels[k].missed >= RelationThreshold(settings)) || (k.source in after.gone && Owning(k)))
  {
    if !p.Issues? {
      var done := if p.Chunk? then PartRows(p, before, seen.rels) else {};
      assert RowDone(before.rels, after.rels, done, after.gone, RelationThreshold(settings), k);
      if Linked(before.rels, k) {
        RowsLooked(p, before, seen.rels, k);
      }
    }
  }

  lemma {:induction false} GoneGrows(parts: seq<Part>, trace: seq<Tables>, source: string, seen: Reported, settings: Settings, now: Time, n: nat, m: nat)
    requires Traced(parts, trace, source, seen, settings, now) && n <= m <= |parts|
    ensures trace[n].gone <= trace[m].gone && trace[n].assets.Keys == trace[m].assets.Keys
    decreases m
  {
    if n < m {
      GoneGrows(parts, trace, source, seen, settings, now, n, m - 1);
      assert PartDone(parts, trace, m - 1, source, seen, settings, now);
    }
  }

  lemma SameLooks(parts: seq<Part>, trace: seq<Tables>, source: string, seen: Reported, settings: Settings, now: Time, n: nat, k: RelationKey)
    requires Traced(parts, trace, source, seen, settings, now) && n < |parts|
    ensures LookedAlong(parts[n], trace[n].assets, k) == LookedAlong(parts[n], trace[0].assets, k)
  {
    GoneGrows(parts, trace, source, seen, settings, now, 0, n);
    if k.source in trace[0].assets {
      CountedUpTo(parts, trace, source, seen, settings, now, k.source, n);
    }
    if k.target in trace[0].assets {
      CountedUpTo(parts, trace, source, seen, settings, now, k.target, n);
    }
    SameTraitsLook(parts[n], trace[0].assets, trace[n].assets, k);
  }

  lemma {:induction false} RelationUpTo(parts: seq<Part>, trace: seq<Tables>, source: string, seen: Reported, settings: Settings, now: Time,
                                        k: RelationKey, n: nat)
    requires Traced(parts, trace, source, seen, settings, now) && n <= |parts| && Linked(trace[0].rels, k)
    requires !(k.source in trace[|parts|].gone && Owning(k))
    ensures k in trace[n].rels
    ensures var m := if k in seen.rels then 0 else TimesAlong(parts, trace[0].assets, k, n);
            && (Linked(trace[n].rels, k) ==> trace[n].rels[k].missed == trace[0].rels[k].missed + m)
            && (!Linked(trace[n].rels, k) <==> m > 0 && trace[0].rels[k].missed + m >= RelationThreshold(settings))
  {
    if n > 0 {
      RelationUpTo(parts, trace, source, seen, settings, now, k, n - 1);
      assert PartDone(parts, trace, n - 1, source, seen, settings, now);
      PartRelation(parts[n - 1], trace[n - 1], trace[n], source, seen, settings, now, k);
      SameLooks(parts, trace, source, seen, settings, now, n - 1, k);
      GoneGrows(parts, trace, source, seen, settings, now, n, |parts|);
    }
  }

  /**
   A relation that is live when a run's coverage begins, and whose source does not go and take it along, ends exactly
   when the run looked along it without reporting it and so often that this makes the threshold; while it lives its
   counter says how often.
   */
  lemma RelationGoesExactly(r: Run, k: RelationKey)
    requires IsRun(r) && Linked(r.Begun().rels, k) && !(k.source in r.After().gone && Owning(k))
    ensures k in r.After().rels
    ensures var m := if k in r.Seen().rels then 0 else TimesAlong(r.Todo(), r.Begun().assets, k, |r.Todo()|);
            && (!Linked(r.After().rels, k) <==> m > 0 && r.Begun().rels[k].missed + m >= RelationThreshold(r.settings))
            && (Linked(r.After().rels, k) ==> r.After().rels[k].missed == r.Begun().rels[k].missed + m)
  {
    RelationUpTo(r.Todo(), r.trace, r.batch.source, r.Seen(), r.settings, r.now, k, |r.Todo()|);
  }

  // -------------------------------------------------------------- what is owned

  /** An address owns its ports, a port its service, and a name or an address the endpoints it serves. */
  predicate PartOf(k: RelationKey) {
    match k.kind
    case HasPort => k.source.kind.IpAddress? && k.target.kind.Port?
    case RunsService => k.source.kind.Port? && k.target.kind.Service?
    case Serves =>
      && (k.source.kind.RootDomain? || k.source.kind.Domain? || k.source.kind.Subdomain? || k.source.kind.IpAddress?)
      && k.target.kind.HttpEndpoint?
    case _ => false
  }

  lemma OwningMeans(k: RelationKey)
    ensures Owning(k) <==> PartOf(k)
  {
  }

  /**
   What goes takes along what it owns: a part that was not observed, that no other host served when the coverage
   began, and whose relation the run did not end by its own misses, is inactive after a run in which its owner went.
   */
  lemma PartsGoAlong(r: Run, k: RelationKey)
    requires IsRun(r) && Linked(r.Begun().rels, k) && PartOf(k) && k.source in r.After().gone
    requires k.target !in r.Seen().keys
    requires k.kind.Serves? ==> forall o :: Linked(r.Begun().rels, o) && o.kind.Serves? && o.target == k.target ==> o.source == k.source
    requires r.After().rels[k].missed == r.Begun().rels[k].missed || r.After().rels[k].missed < RelationThreshold(r.settings)
    ensures !Active(r.After().assets, k.target)
  {
    OwningMeans(k);
    assert Along(r.Begun().rels, r.After().rels, r.After().assets, r.Seen().keys, r.After().gone, RelationThreshold(r.settings), k);
  }

  // --------------------------------------------------------------------- misses

  /** How often a part of a run misses an asset, told from what it lists and looks along. */
  lemma PartMissesMeans(p: Part, t: Tables, seen: Reported, k: Key)
    ensures k in seen.keys ==> PartMisses(p, t, seen, k) == 0
    ensures k !in seen.keys && p.Listing? ==> PartMisses(p, t, seen, k) == multiset(p.listed)[k]
    ensures k !in seen.keys && p.Chunk? ==>
              PartMisses(p, t, seen, k) ==
              if k.kind.Port? || k.kind.Service? || k.kind.HttpEndpoint?
              then |set o | o in t.rels && t.rels[o].active && o.target == k && o !in seen.rels && LookedAlong(p, t.assets, o)| else 0
  {
    if p.Chunk? {
      assert Leading(PartRows(p, t, seen.rels), k) ==
             set o | o in t.rels && t.rels[o].active && o.target == k && o !in seen.rels && LookedAlong(p, t.assets, o);
    }
  }

  // ------------------------------------------------------------------ findings

  /** The part looked for such a finding, on a known asset. */
  predicate PartLooked(p: Part, assets: Inventory, k: FindingKey, f: Finding) {
    p.Issues? && k.asset in assets && LookedFor(k, f.severity, f.tags, p.coverage)
  }

  function TimesLooked(parts: seq<Part>, assets: Inventory, k: FindingKey, f: Finding, n: nat): nat
    requires n <= |parts|
  {
    if n == 0 then 0 else TimesLooked(parts, assets, k, f, n - 1) + if PartLooked(parts[n - 1], assets, k, f) then 1 else 0
  }

  lemma PartFinding(p: Part, before: Tables, after: Tables, source: string, seen: Reported, settings: Settings, now: Time, k: FindingKey)
    requires OnePart(p, before, after, source, seen, settings, now) && k in before.book && k.asset !in after.gone
    ensures k in after.book
    ensures var f, g := before.book[k], after.book[k];
            var missed := Open(f.status) && k.source == source && k !in seen.findings && PartLooked(p, before.assets, k, f);
            && g.severity == f.severity && g.tags == f.tags
            && g.missed == f.missed + (if missed then 1 else 0)
            && g.status == if missed && g.missed >= FindingThreshold(settings) then Remediated else f.status
  {
    if p.Issues? {
      var cov := p.coverage.(assets := p.coverage.assets * before.assets.Keys);
      ResolvedExactly(before.book, source, cov, seen.findings, FindingThreshold(settings), now, k);
      assert LookedFor(k, before.book[k].severity, before.book[k].tags, cov) <==> PartLooked(p, before.assets, k, before.book[k]);
    }
  }

  lemma {:induction false} FindingUpTo(parts: seq<Part>, trace: seq<Tables>, source: string, seen: Reported, settings: Settings, now: Time,
                                       k: FindingKey, n: nat)
    requires Traced(parts, trace, source, seen, settings, now) && n <= |parts|
    requires k in trace[0].book && Open(trace[0].book[k].status) && k.asset !in trace[|parts|].gone
    ensures k in trace[n].book
    ensures var f, g := trace[0].book[k], trace[n].book[k];
            var m := if k.source != source || k in seen.findings then 0 else TimesLooked(parts, trace[0].assets, k, f, n);
            && g.severity == f.severity && g.tags == f.tags
            && (g.status.Remediated? || g.status == f.status)
            && (!g.status.Remediated? ==> g.missed == f.missed + m)
            && (g.status.Remediated? <==> m > 0 && f.missed + m >= FindingThreshold(settings))
  {
    if n > 0 {
      FindingUpTo(parts, trace, source, seen, settings, now, k, n - 1);
      assert PartDone(parts, trace, n - 1, source, seen, settings, now);
      GoneGrows(parts, trace, source, seen, settings, now, n, |parts|);
      GoneGrows(parts, trace, source, seen, settings, now, 0, n - 1);
      PartFinding(parts[n - 1], trace[n - 1], trace[n], source, seen, settings, now, k);
    }
  }

  /**
   A finding that is open when a run's coverage begins is resolved by it exactly when its asset goes, or when the run
   is of its source, looked for it without reporting it, and so often that this makes the threshold.
   */
  lemma FindingGoesExactly(r: Run, k: FindingKey)
    requires IsRun(r) && k in r.Begun().book && Open(r.Begun().book[k].status)
    ensures k in r.After().book
    ensures var f := r.Begun().book[k];
            var m := TimesLooked(r.Todo(), r.Begun().assets, k, f, |r.Todo()|);
            r.After().book[k].status.Remediated? <==>
            || k.asset in r.After().gone
            || (k.source == r.batch.source && k !in r.Seen().findings && m > 0 && f.missed + m >= FindingThreshold(r.settings))
  {
    assert BookRow(r.Begun().book, r.After().book, r.After().gone, r.batch.source, k);
    if k.asset in r.After().gone {
      assert NoOpenFinding(r.After().book, k.asset);
    } else {
      FindingUpTo(r.Todo(), r.trace, r.batch.source, r.Seen(), r.settings, r.now, k, |r.Todo()|);
    }
  }
}
