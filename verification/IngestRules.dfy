/**
 What a run says, and what each part of it does to one row: sightings, relations, misses
 (backend/app/assets/ingest.py).
 */
module IngestRules {
  import opened Prelude
  import opened Assets
  import opened Findings
  import opened Cascade

  /** The tenant's inactivity rules; an absent entry falls back to the default one. */
  datatype Settings = Settings(assets: map<AssetType, int>, relation: Option<int>, finding: Option<int>, fallback: int)

  function AssetThreshold(s: Settings, t: AssetType): (r: nat)
    ensures r >= 1
  {
    Max(1, if t in s.assets then s.assets[t] else s.fallback)
  }

  function RelationThreshold(s: Settings): (r: nat)
    ensures r >= 1
  {
    Max(1, s.relation.GetOr(s.fallback))
  }

  function FindingThreshold(s: Settings): (r: nat)
    ensures r >= 1
  {
    Max(1, s.finding.GetOr(s.fallback))
  }

  /** A key a run mentions, with the scope status computed for it; no status means it is dropped. */
  datatype Sighting = Sighting(key: Key, observed: bool, status: Option<Scope>, cdn: Option<bool>, port: Option<nat>)

  datatype Issue = Issue(key: FindingKey, severity: Severity, tags: set<string>)

  /** A set of ports whose absence a run vouches for; addresses behind a content network may have their own. */
  datatype PortLimit = PortLimit(spec: set<nat>, cdnSpec: Option<set<nat>>)

  /**
   What a run vouches for. `listed` and `chunks` are what the lookups return: known assets, in chunks of a thousand
   values, each asset once for all the values of its chunk that name it.
   */
  datatype Covered =
    | Liveness(listed: seq<Key>)
    | RelationsOf(chunks: seq<set<Key>>, kind: RelationType, children: set<AssetType>, limit: Option<PortLimit>)
    | FindingsOf(coverage: Findings.Coverage)

  datatype Batch = Batch(
    source: string,
    historical: bool,
    sightings: seq<Sighting>,
    relations: seq<RelationKey>,
    issues: seq<Issue>,
    coverage: seq<Covered>)

  // ---------------------------------------------------------------- sightings

  function ScopeRank(s: Scope): nat {
    match s case OutOfScope => 0 case Derived => 1 case InScope => 2
  }

  function Rescoped(t: AssetType, was: Scope, status: Scope): Scope {
    if IsHostname(t) || t.IpAddress? then
      if t.IpAddress? && status.OutOfScope? && was.Derived? then was else status
    else if ScopeRank(status) > ScopeRank(was) then status
    else was
  }

  function Discovered(s: Sighting, now: Time): Asset
    requires s.status.Some?
  {
    Asset(true, None, now, 0, s.status.value, s.cdn.GetOr(false), s.port)
  }

  function Enriched(a: Asset, s: Sighting): Asset {
    a.(cdn := s.cdn.GetOr(a.cdn), port := if s.port.Some? then s.port else a.port)
  }

  /** A live observation proves the asset is there now; a historical one only adds what it knows. */
  function Resighted(a: Asset, s: Sighting, historical: bool, now: Time): Asset
    requires s.status.Some?
  {
    var b := if s.observed then Enriched(a, s) else a;
    var c := if s.observed && !historical then b.(lastSeen := now, missed := 0, active := true, inactiveSince := if a.active then a.inactiveSince else None) else b;
    c.(scope := Rescoped(s.key.kind, a.scope, s.status.value))
  }

  function Sight(assets: Inventory, s: Sighting, historical: bool, now: Time): Inventory {
    if s.status.None? then assets
    else assets[s.key := if s.key in assets then Resighted(assets[s.key], s, historical, now) else Discovered(s, now)]
  }

  function SightAll(assets: Inventory, ss: seq<Sighting>, historical: bool, now: Time): Inventory {
    if ss == [] then assets
    else Sight(SightAll(assets, ss[..|ss| - 1], historical, now), ss[|ss| - 1], historical, now)
  }

  /** The keys the run observed, as opposed to those it only mentions. */
  function ObservedKeys(ss: seq<Sighting>): set<Key> {
    set n | 0 <= n < |ss| && ss[n].observed && ss[n].status.Some? :: ss[n].key
  }

  /** No asset stays active once it was missed often enough. */
  ghost predicate BelowThreshold(assets: Inventory, settings: Settings) {
    forall k {:trigger AssetThreshold(settings, k.kind)} :: Active(assets, k) ==> assets[k].missed < AssetThreshold(settings, k.kind)
  }

  // ------------------------------------------------ what a whole run observed

  /** Active assets stay active, and counters only go down. */
  ghost predicate NothingLost(assets: Inventory, after: Inventory) {
    forall k :: k in assets ==> k in after && after[k].missed <= assets[k].missed && (assets[k].active ==> after[k].active)
  }

  predicate SameLife(a: Asset, b: Asset) {
    b.active == a.active && b.inactiveSince == a.inactiveSince && b.lastSeen == a.lastSeen && b.missed == a.missed
  }

  /** Every row's liveness is as it was. */
  ghost predicate SameLiveness(assets: Inventory, after: Inventory) {
    forall k :: k in assets ==> k in after && SameLife(assets[k], after[k])
  }

  /** Everything live-observed is there, now, with a clean counter. */
  ghost predicate Present(assets: Inventory, keys: set<Key>, now: Time) {
    forall k :: k in keys ==> k in assets && assets[k].active && assets[k].missed == 0 && assets[k].lastSeen == now
  }

  /** Only a live observation brings an inactive asset back. */
  ghost predicate BroughtBack(assets: Inventory, after: Inventory, keys: set<Key>) {
    forall k :: k in assets && !assets[k].active && Active(after, k) ==> k in keys
  }

  /** Sightings lose nothing; live ones prove presence; historical ones never touch liveness. */
  lemma {:induction false} SightAllMeans(assets: Inventory, ss: seq<Sighting>, historical: bool, now: Time)
    ensures NothingLost(assets, SightAll(assets, ss, historical, now))
    ensures ObservedKeys(ss) <= SightAll(assets, ss, historical, now).Keys
    ensures !historical ==> Present(SightAll(assets, ss, historical, now), ObservedKeys(ss), now)
    ensures historical ==> SameLiveness(assets, SightAll(assets, ss, historical, now))
    ensures BroughtBack(assets, SightAll(assets, ss, historical, now), if historical then {} else ObservedKeys(ss))
    ensures ObservedKeys(ss) == {} ==> SameLiveness(assets, SightAll(assets, ss, historical, now))
  {
    if ss != [] {
      var init := ss[..|ss| - 1];
      SightAllMeans(assets, init, historical, now);
      ObservedOneMore(init, ss[|ss| - 1]);
      assert ss == init + [ss[|ss| - 1]];
      SightStep(assets, SightAll(assets, init, historical, now), ObservedKeys(init), ss[|ss| - 1], historical, now);
    }
  }

  /** The run starts the asset's counter afresh: it is new, or was observed live. */
  predicate Refreshes(before: Inventory, batch: Batch, k: Key) {
    k !in before || (!batch.historical && k in ObservedKeys(batch.sightings))
  }

  /** Recording what a run reports resets exactly the counters it refreshes, and leaves all others alone. */
  lemma {:induction false} SightedCounter(assets: Inventory, ss: seq<Sighting>, historical: bool, now: Time, k: Key)
    requires k in SightAll(assets, ss, historical, now)
    ensures var reset := k !in assets || (!historical && k in ObservedKeys(ss));
            SightAll(assets, ss, historical, now)[k].missed == if reset then 0 else assets[k].missed
  {
    if ss != [] {
      var init, last := ss[..|ss| - 1], ss[|ss| - 1];
      ObservedOneMore(init, last);
      SightAllMeans(assets, init, historical, now);
      assert ss == init + [last];
      if k in SightAll(assets, init, historical, now) {
        SightedCounter(assets, init, historical, now, k);
      }
    }
  }

  lemma ObservedOneMore(ss: seq<Sighting>, s: Sighting)
    ensures ObservedKeys(ss + [s]) == ObservedKeys(ss) + if s.observed && s.status.Some? then {s.key} else {}
  {
    var all := ss + [s];
    forall k | k in ObservedKeys(ss)
      ensures k in ObservedKeys(all)
    {
      var n :| 0 <= n < |ss| && ss[n].observed && ss[n].status.Some? && ss[n].key == k;
      assert all[n] == ss[n];
    }
    assert all[|ss|] == s;
  }

  lemma SightStep(assets: Inventory, mid: Inventory, keys: set<Key>, s: Sighting, historical: bool, now: Time)
    requires NothingLost(assets, mid) && keys <= mid.Keys
    requires !historical ==> Present(mid, keys, now)
    requires historical ==> SameLiveness(assets, mid)
    requires BroughtBack(assets, mid, if historical then {} else keys)
    requires keys == {} ==> SameLiveness(assets, mid)
    ensures var after := Sight(mid, s, historical, now);
            var now' := keys + if s.observed && s.status.Some? then {s.key} else {};
            && NothingLost(assets, after) && now' <= after.Keys
            && (!historical ==> Present(after, now', now))
            && (historical ==> SameLiveness(assets, after))
            && BroughtBack(assets, after, if historical then {} else now')
            && (now' == {} ==> SameLiveness(assets, after))
  {
  }

  // ----------------------------------------------------------------- relations

  /** Sightings of relations: both ends known and different. */
  predicate Relates(assets: Inventory, k: RelationKey) {
    k.source in assets && k.target in assets && k.source != k.target
  }

  /** A newly presented certificate ends what the source presented before, unless seen in this run too. */
  predicate Superseded(rels: Relations, seen: set<RelationKey>, k: RelationKey, other: RelationKey) {
    && k.kind.PresentsCertificate? && other.kind.PresentsCertificate?
    && other.source == k.source && other != k && other !in seen && Linked(rels, other)
  }

  function Related(rels: Relations, seen: set<RelationKey>, k: RelationKey, historical: bool, now: Time): Relations {
    if k in rels then
      var r := rels[k].(active := true);
      rels[k := if historical then r else r.(lastSeen := now, missed := 0)]
    else
      (map o | o in rels :: if Superseded(rels, seen, k, o) then rels[o].(active := false) else rels[o])[k := Relation(true, 0, now)]
  }

  /** No relation is forgotten and no miss is counted. */
  ghost predicate NoRelationMiss(rels: Relations, after: Relations) {
    forall k :: k in rels ==> k in after && after[k].missed <= rels[k].missed
  }

  lemma RelatedKeeps(rels: Relations, seen: set<RelationKey>, k: RelationKey, historical: bool, now: Time)
    ensures Linked(Related(rels, seen, k, historical, now), k)
    ensures NoRelationMiss(rels, Related(rels, seen, k, historical, now))
    ensures forall o :: o in seen && Linked(rels, o) ==> Linked(Related(rels, seen, k, historical, now), o)
  {
  }

  /** The relations of a run that count: between known, different assets. */
  function RelatedKeys(assets: Inventory, ks: seq<RelationKey>): set<RelationKey> {
    set k | k in ks && Relates(assets, k)
  }

  /** Each relation of a run in turn, the first time it is reported. */
  function RelateAll(rels: Relations, assets: Inventory, ks: seq<RelationKey>, historical: bool, now: Time): Relations {
    if ks == [] then rels
    else
      var init, k := ks[..|ks| - 1], ks[|ks| - 1];
      var mid, seen := RelateAll(rels, assets, init, historical, now), RelatedKeys(assets, init);
      if Relates(assets, k) && k !in seen then Related(mid, seen + {k}, k, historical, now) else mid
  }

  /** Every reported relation is live afterwards, and none was counted as missed. */
  lemma {:induction false} RelateAllMeans(rels: Relations, assets: Inventory, ks: seq<RelationKey>, historical: bool, now: Time)
    ensures NoRelationMiss(rels, RelateAll(rels, assets, ks, historical, now))
    ensures forall k :: k in RelatedKeys(assets, ks) ==> Linked(RelateAll(rels, assets, ks, historical, now), k)
  {
    if ks != [] {
      var init, k := ks[..|ks| - 1], ks[|ks| - 1];
      RelateAllMeans(rels, assets, init, historical, now);
      RelatedKeysOneMore(assets, init, k);
      assert ks == init + [k];
      var mid, seen := RelateAll(rels, assets, init, historical, now), RelatedKeys(assets, init);
      RelatedKeeps(mid, seen + {k}, k, historical, now);
    }
  }

  lemma RelatedKeysOneMore(assets: Inventory, ks: seq<RelationKey>, k: RelationKey)
    ensures RelatedKeys(assets, ks + [k]) == RelatedKeys(assets, ks) + if Relates(assets, k) then {k} else {}
  {
  }

  // ------------------------------------------------------------------- findings

  /** Where a reported issue is filed, if its asset is known and in scope. */
  predicate Files(assets: Inventory, i: Issue) {
    i.key.asset in assets && !assets[i.key.asset].scope.OutOfScope?
  }

  function FiledKey(i: Issue, source: string): FindingKey {
    i.key.(source := source)
  }

  function FiledKeys(assets: Inventory, issues: seq<Issue>, source: string): set<FindingKey> {
    set n | 0 <= n < |issues| && Files(assets, issues[n]) :: FiledKey(issues[n], source)
  }

  /** Each reported issue in turn. */
  function FileAll(book: Book, assets: Inventory, issues: seq<Issue>, source: string, historical: bool, now: Time): Book {
    if issues == [] then book
    else
      var mid, i := FileAll(book, assets, issues[..|issues| - 1], source, historical, now), issues[|issues| - 1];
      if Files(assets, i) then Upsert(mid, FiledKey(i, source), i.severity, i.tags, now, historical || "unverified" in i.tags) else mid
  }

  /** Reporting resolves nothing, and what is reported is on file. */
  lemma {:induction false} FileAllMeans(book: Book, assets: Inventory, issues: seq<Issue>, source: string, historical: bool, now: Time)
    ensures NothingResolved(book, FileAll(book, assets, issues, source, historical, now))
    ensures FiledKeys(assets, issues, source) <= FileAll(book, assets, issues, source, historical, now).Keys
    ensures BookOk(book) ==> BookOk(FileAll(book, assets, issues, source, historical, now))
  {
    if issues != [] {
      var init, i := issues[..|issues| - 1], issues[|issues| - 1];
      FileAllMeans(book, assets, init, source, historical, now);
      FiledOneMore(assets, init, i, source);
      assert issues == init + [i];
    }
  }

  lemma FiledOneMore(assets: Inventory, issues: seq<Issue>, i: Issue, source: string)
    ensures FiledKeys(assets, issues + [i], source) == FiledKeys(assets, issues, source) + if Files(assets, i) then {FiledKey(i, source)} else {}
  {
    var all := issues + [i];
    forall k | k in FiledKeys(assets, issues, source)
      ensures k in FiledKeys(assets, all, source)
    {
      var n :| 0 <= n < |issues| && Files(assets, issues[n]) && FiledKey(issues[n], source) == k;
      assert all[n] == issues[n];
    }
    assert all[|issues|] == i;
  }

  /** No finding is forgotten or resolved. */
  ghost predicate NothingResolved(book: Book, after: Book) {
    forall k :: k in book ==> k in after && (after[k].status.Remediated? ==> book[k].status.Remediated?)
  }

  /** No finding of another source is resolved. */
  ghost predicate ResolvedOnlyOf(book: Book, after: Book, source: string) {
    forall k :: k in book ==> k in after && (after[k].status.Remediated? && !book[k].status.Remediated? ==> k.source == source)
  }

  predicate NoOpenFinding(book: Book, k: Key) {
    forall f :: f in book && f.asset == k ==> !Open(book[f].status)
  }

  // ------------------------------------------------------------- covered relations

  /** The relation's far end is within what the run looked at. */
  predicate InLimit(assets: Inventory, k: RelationKey, limit: Option<PortLimit>)
    requires k.source in assets && k.target in assets
  {
    limit.None? ||
    (var spec := if limit.value.cdnSpec.Some? && assets[k.source].cdn then limit.value.cdnSpec.value else limit.value.spec;
     assets[k.target].port.Some? && assets[k.target].port.value in spec)
  }

  /** The relations of these parents that a coverage counts as missed. */
  function CoveredRows(assets: Inventory, rels: Relations, seen: set<RelationKey>, parents: set<Key>, kind: RelationType,
                       children: set<AssetType>, limit: Option<PortLimit>): (r: set<RelationKey>)
    ensures r <= rels.Keys
  {
    set k | k in rels && k.source in parents && k.kind == kind && rels[k].active && k.target.kind in children
            && k !in seen && k.source in assets && k.target in assets && InLimit(assets, k, limit)
  }

  /** How often a coverage of relations misses an asset: once for every covered relation that leads to it. */
  function Leading(rows: set<RelationKey>, k: Key): set<RelationKey> {
    set r | r in rows && r.target == k
  }

  function MissesBy(rows: set<RelationKey>, observed: set<Key>, k: Key): nat {
    if CountsMisses(k.kind) && k !in observed then |Leading(rows, k)| else 0
  }

  predicate OnlyFindings(coverage: seq<Covered>) {
    forall n :: 0 <= n < |coverage| ==> coverage[n].FindingsOf?
  }
}
