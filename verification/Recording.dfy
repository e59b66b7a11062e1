/**
 What recording a run does to each row, told from the report alone: assets, relations and findings
 (backend/app/assets/ingest.py).
 */
module Recording {
  import opened Prelude
  import opened Assets
  import opened Findings
  import opened Cascade
  import opened IngestRules

  // ---------------------------------------------------------------- thresholds

  /** A threshold is the setting for the type, else the fallback, and never less than one. */
  lemma Thresholds(s: Settings, t: AssetType)
    ensures t in s.assets && s.assets[t] >= 1 ==> AssetThreshold(s, t) == s.assets[t]
    ensures t !in s.assets && s.fallback >= 1 ==> AssetThreshold(s, t) == s.fallback
    ensures s.relation.Some? && s.relation.value >= 1 ==> RelationThreshold(s) == s.relation.value
    ensures s.relation.None? && s.fallback >= 1 ==> RelationThreshold(s) == s.fallback
    ensures s.finding.Some? && s.finding.value >= 1 ==> FindingThreshold(s) == s.finding.value
    ensures s.finding.None? && s.fallback >= 1 ==> FindingThreshold(s) == s.fallback
    ensures t in s.assets && s.assets[t] <= 1 ==> AssetThreshold(s, t) == 1
    ensures t !in s.assets && s.fallback <= 1 ==> AssetThreshold(s, t) == 1
    ensures s.relation.Some? && s.relation.value <= 1 ==> RelationThreshold(s) == 1
    ensures s.finding.Some? && s.finding.value <= 1 ==> FindingThreshold(s) == 1
  {
  }

  // ----------------------------------------------------------------- sightings

  /** The run gives this key a status, whether it observed it or not. */
  predicate Mentioned(ss: seq<Sighting>, k: Key) {
    exists n :: 0 <= n < |ss| && Mentions(ss[n], k)
  }

  predicate Mentions(s: Sighting, k: Key) {
    s.key == k && s.status.Some?
  }

  lemma MentionedOneMore(ss: seq<Sighting>, s: Sighting, k: Key)
    ensures Mentioned(ss + [s], k) <==> Mentioned(ss, k) || Mentions(s, k)
  {
    var all := ss + [s];
    if Mentioned(ss, k) {
      var n :| 0 <= n < |ss| && Mentions(ss[n], k);
      assert Mentions(all[n], k);
    }
    assert all[|ss|] == s;
  }

  /** What the sightings of a run leave of a row's life. */
  ghost predicate LifeAfter(assets: Inventory, after: Inventory, live: bool, now: Time, k: Key)
    requires k in after
  {
    var b := after[k];
    if k !in assets then b.active && b.inactiveSince.None? && b.lastSeen == now && b.missed == 0
    else if live then
      b.active && b.lastSeen == now && b.missed == 0 && b.inactiveSince == if assets[k].active then assets[k].inactiveSince else None
    else SameLife(assets[k], b)
  }

  /**
   After the sightings of a run exactly the known and the mentioned assets are known. A new one is active and
   fresh, one observed live is active and fresh again, and the life of every other is untouched.
   */
  lemma {:induction false} SightedLife(assets: Inventory, ss: seq<Sighting>, historical: bool, now: Time, k: Key)
    ensures k in SightAll(assets, ss, historical, now) <==> k in assets || Mentioned(ss, k)
    ensures k in ObservedKeys(ss) <==> exists n :: 0 <= n < |ss| && Mentions(ss[n], k) && ss[n].observed
    ensures k in SightAll(assets, ss, historical, now) ==>
              LifeAfter(assets, SightAll(assets, ss, historical, now), !historical && k in ObservedKeys(ss), now, k)
  {
    if ss != [] {
      var init, last := ss[..|ss| - 1], ss[|ss| - 1];
      assert ss == init + [last];
      SightedLife(assets, init, historical, now, k);
      MentionedOneMore(init, last, k);
      ObservedOneMore(init, last);
    }
  }

  /** What a mention makes of the scope: a name takes it, an address too unless derived, and the rest only rise. */
  predicate ScopeTaken(t: AssetType, was: Option<Scope>, status: Scope, now: Scope) {
    if was.None? || IsHostname(t) then now == status
    else if t.IpAddress? then now == if was.value.Derived? && status.OutOfScope? then Derived else status
    else
      && (now == was.value || now == status)
      && (was.value.InScope? || status.InScope? ==> now.InScope?)
      && (now.OutOfScope? ==> was.value.OutOfScope? && status.OutOfScope?)
  }

  function ScopeOf(assets: Inventory, k: Key): Option<Scope> {
    if k in assets then Some(assets[k].scope) else None
  }

  function CdnOf(assets: Inventory, k: Key): bool {
    k in assets && assets[k].cdn
  }

  function PortOf(assets: Inventory, k: Key): Option<nat> {
    if k in assets then assets[k].port else None
  }

  /** The mention after which a run says no more of a key decides the rest of its row. */
  lemma {:induction false} LastMentionDecides(assets: Inventory, ss: seq<Sighting>, historical: bool, now: Time, m: nat)
    requires m < |ss| && ss[m].status.Some? && forall n :: m < n < |ss| ==> !Mentions(ss[n], ss[m].key)
    ensures var k, before, after := ss[m].key, SightAll(assets, ss[..m], historical, now), SightAll(assets, ss, historical, now);
            && k in after
            && ScopeTaken(k.kind, ScopeOf(before, k), ss[m].status.value, after[k].scope)
            && (ss[m].observed || k !in before ==>
                && after[k].cdn == ss[m].cdn.GetOr(CdnOf(before, k))
                && after[k].port == if ss[m].port.Some? then ss[m].port else PortOf(before, k))
            && (!ss[m].observed && k in before ==> after[k].cdn == before[k].cdn && after[k].port == before[k].port)
    decreases |ss|
  {
    var init := ss[..|ss| - 1];
    if m < |ss| - 1 {
      assert init[..m] == ss[..m];
      LastMentionDecides(assets, init, historical, now, m);
      assert !Mentions(ss[|ss| - 1], ss[m].key);
    }
  }

  /** Services, certificates and the like never fall in scope by being mentioned. */
  lemma {:induction false} ScopeNeverFalls(assets: Inventory, ss: seq<Sighting>, historical: bool, now: Time, k: Key)
    requires k in assets && !IsHostname(k.kind) && !k.kind.IpAddress?
    ensures k in SightAll(assets, ss, historical, now)
    ensures ScopeRank(SightAll(assets, ss, historical, now)[k].scope) >= ScopeRank(assets[k].scope)
    ensures forall n :: 0 <= n < |ss| && Mentions(ss[n], k) ==>
              ScopeRank(SightAll(assets, ss, historical, now)[k].scope) >= ScopeRank(ss[n].status.value)
  {
    if ss != [] {
      var init := ss[..|ss| - 1];
      ScopeNeverFalls(assets, init, historical, now, k);
      forall n | 0 <= n < |ss| - 1 && Mentions(ss[n], k)
        ensures ScopeRank(SightAll(assets, init, historical, now)[k].scope) >= ScopeRank(ss[n].status.value)
      {
        assert init[n] == ss[n];
      }
    }
  }

  // ----------------------------------------------------------------- relations

  /** The run reports that the source of a certificate presents one it was not known to present. */
  predicate PresentsAnother(rels: Relations, reported: set<RelationKey>, o: RelationKey) {
    o.kind.PresentsCertificate? &&
    exists k :: k in reported && k !in rels && k.kind.PresentsCertificate? && k.source == o.source
  }

  /** What a run's relations leave of one row. */
  ghost predicate RelationAfter(rels: Relations, after: Relations, reported: set<RelationKey>, historical: bool, now: Time, o: RelationKey)
    requires o in after
  {
    var b := after[o];
    if o !in rels then b == Relation(true, 0, now)
    else if o in reported then
      b.active && b.missed == (if historical then rels[o].missed else 0) && b.lastSeen == if historical then rels[o].lastSeen else now
    else
      b == rels[o].(active := rels[o].active && !PresentsAnother(rels, reported, o))
  }

  /**
   After the relations of a run exactly the known and the reported ones are known. A new one is live; a reported one
   is live, with a clean counter unless the run is historical; any other is as it was, except that a certificate
   ends when the run reports a new one of the same source.
   */
  lemma {:induction false} RelatedExactly(rels: Relations, assets: Inventory, ks: seq<RelationKey>, historical: bool, now: Time, o: RelationKey)
    ensures o in RelatedKeys(assets, ks) <==> o in ks && o.source in assets && o.target in assets && o.source != o.target
    ensures var after := RelateAll(rels, assets, ks, historical, now);
            && (o in after <==> o in rels || o in RelatedKeys(assets, ks))
            && (o in after ==> RelationAfter(rels, after, RelatedKeys(assets, ks), historical, now, o))
  {
    if ks != [] {
      var init, k := ks[..|ks| - 1], ks[|ks| - 1];
      assert ks == init + [k];
      RelatedExactly(rels, assets, init, historical, now, o);
      RelatedExactly(rels, assets, init, historical, now, k);
      RelatedKeysOneMore(assets, init, k);
      var mid, seen := RelateAll(rels, assets, init, historical, now), RelatedKeys(assets, init);
      if Relates(assets, k) && k !in seen {
        RelatedOnce(rels, mid, seen, k, historical, now, o);
      } else {
        assert RelatedKeys(assets, ks) == seen;
      }
    }
  }

  lemma RelatedOnce(rels: Relations, mid: Relations, seen: set<RelationKey>, k: RelationKey, historical: bool, now: Time, o: RelationKey)
    requires k !in seen && (k in mid <==> k in rels || k in seen) && (o in mid <==> o in rels || o in seen)
    requires k in mid ==> RelationAfter(rels, mid, seen, historical, now, k)
    requires o in mid ==> RelationAfter(rels, mid, seen, historical, now, o)
    ensures var after := Related(mid, seen + {k}, k, historical, now);
            && (o in after <==> o in rels || o in seen + {k})
            && (o in after ==> RelationAfter(rels, after, seen + {k}, historical, now, o))
  {
    if o in rels && o !in seen && o != k {
      AnotherOneMore(rels, seen, k, o);
    }
  }

  lemma AnotherOneMore(rels: Relations, seen: set<RelationKey>, k: RelationKey, o: RelationKey)
    ensures PresentsAnother(rels, seen + {k}, o) <==>
            PresentsAnother(rels, seen, o) || (o.kind.PresentsCertificate? && k !in rels && k.kind.PresentsCertificate? && k.source == o.source)
  {
    var more := seen + {k};
    if PresentsAnother(rels, seen, o) {
      var j :| j in seen && j !in rels && j.kind.PresentsCertificate? && j.source == o.source;
      assert j in more;
    }
    assert k in more;
  }

  // ------------------------------------------------------------------ findings

  /** The n-th issue is about this finding, and about a known asset that is not out of scope. */
  predicate IsAbout(assets: Inventory, i: Issue, source: string, k: FindingKey) {
    && i.key.asset in assets && !assets[i.key.asset].scope.OutOfScope?
    && k.asset == i.key.asset && k.rule == i.key.rule && k.location == i.key.location && k.source == source
  }

  function Reports(assets: Inventory, issues: seq<Issue>, source: string, k: FindingKey): seq<Issue> {
    if issues == [] then []
    else
      var init, i := issues[..|issues| - 1], issues[|issues| - 1];
      Reports(assets, init, source, k) + if IsAbout(assets, i, source, k) then [i] else []
  }

  /** Nothing confirms it: the run is historical, or the report says so. */
  predicate Unconfirmed(i: Issue, historical: bool) {
    historical || "unverified" in i.tags
  }

  /** What a run's issues leave of one finding. */
  ghost predicate FindingAfter(book: Book, after: Book, reports: seq<Issue>, historical: bool, now: Time, k: FindingKey)
    requires k in after && (k in book || reports != [])
  {
    if reports == [] then after[k] == book[k]
    else
      var b := after[k];
      && b.severity == reports[|reports| - 1].severity && b.lastSeen == now && b.missed == 0
      && (b.unverified <==> (k in book ==> book[k].unverified) && forall i :: i in reports ==> Unconfirmed(i, historical))
      && if k in book then
           && b.occurrences == book[k].occurrences + |reports| && b.tags == book[k].tags
           && b.falsePositive == book[k].falsePositive && b.acceptedUntil == book[k].acceptedUntil
           && (book[k].status.Remediated? ==> b.status.Reopened? && b.resolvedAt.None?)
           && (!book[k].status.Remediated? ==> b.status == book[k].status && b.resolvedAt == book[k].resolvedAt)
         else
           && b.occurrences == |reports| && b.tags == reports[0].tags && b.status.New?
           && b.resolvedAt.None? && !b.falsePositive && b.acceptedUntil.None?
  }

  /**
   After the issues of a run exactly the known and the reported findings are on file. A reported one has the last
   reported severity, a clean counter and one more occurrence for each report; it is unverified only while every
   report is; it comes back if it was remediated. Any other is as it was.
   */
  lemma {:induction false} FiledExactly(book: Book, assets: Inventory, issues: seq<Issue>, source: string, historical: bool, now: Time,
                                        k: FindingKey)
    ensures var after, reports := FileAll(book, assets, issues, source, historical, now), Reports(assets, issues, source, k);
            && (k in FiledKeys(assets, issues, source) <==> reports != [])
            && (k in after <==> k in book || reports != [])
            && (k in after ==> FindingAfter(book, after, reports, historical, now, k))
  {
    if issues != [] {
      var init, i := issues[..|issues| - 1], issues[|issues| - 1];
      assert issues == init + [i];
      FiledExactly(book, assets, init, source, historical, now, k);
      FiledOneMore(assets, init, i, source);
      assert Files(assets, i) && FiledKey(i, source) == k <==> IsAbout(assets, i, source, k);
      if IsAbout(assets, i, source, k) {
        FiledOnce(book, FileAll(book, assets, init, source, historical, now), Reports(assets, init, source, k), i, source, historical, now, k);
      }
    }
  }

  lemma FiledOnce(book: Book, mid: Book, reports: seq<Issue>, i: Issue, source: string, historical: bool, now: Time, k: FindingKey)
    requires FiledKey(i, source) == k && (k in mid <==> k in book || reports != [])
    requires k in mid ==> FindingAfter(book, mid, reports, historical, now, k)
    ensures var after := Upsert(mid, k, i.severity, i.tags, now, historical || "unverified" in i.tags);
            k in after && FindingAfter(book, after, reports + [i], historical, now, k)
  {
    var more := reports + [i];
    assert more[|more| - 1] == i && (reports != [] ==> more[0] == reports[0]);
    assert i in more && forall j :: j in more <==> j in reports || j == i;
    assert (forall j :: j in more ==> Unconfirmed(j, historical)) <==> (forall j :: j in reports ==> Unconfirmed(j, historical)) && Unconfirmed(i, historical);
  }
}
