/**
 The life of a finding: detections, misses, automatic resolution, the analyst's workflow and the
 expiry of an accepted risk (backend/app/findings/service.py).
 */
module Findings {
  import opened Prelude
  import opened Assets

  datatype Severity = Info | Low | Medium | High | Critical

  datatype Status = New | Investigating | AcceptedRisk | FalsePositive | Remediated | Reopened

  /** What the fingerprint of a finding is made of; two detections with the same one are one entry. */
  datatype FindingKey = FindingKey(asset: Key, source: string, rule: string, location: string)

  datatype Finding = Finding(
    severity: Severity,
    tags: set<string>,
    status: Status,
    resolvedAt: Option<Time>,
    falsePositive: bool,
    acceptedUntil: Option<Time>,
    missed: nat,
    occurrences: nat,
    lastSeen: Time,
    unverified: bool)

  type Book = map<FindingKey, Finding>

  predicate Open(s: Status) {
    s.New? || s.Investigating? || s.Reopened?
  }

  // ------------------------------------------------------------------ by a scan

  function Detected(severity: Severity, tags: set<string>, now: Time, unverified: bool): Finding {
    Finding(severity, tags, New, None, false, None, 0, 1, now, unverified)
  }

  function Redetected(f: Finding, severity: Severity, now: Time, unverified: bool): Finding {
    var g := f.(unverified := f.unverified && unverified, lastSeen := now, occurrences := f.occurrences + 1, missed := 0,
                severity := severity);
    if f.status.Remediated? then g.(status := Reopened, resolvedAt := None) else g
  }

  function Upsert(book: Book, key: FindingKey, severity: Severity, tags: set<string>, now: Time, unverified: bool): Book {
    book[key := if key in book then Redetected(book[key], severity, now, unverified) else Detected(severity, tags, now, unverified)]
  }

  function Resolved(f: Finding, now: Time): Finding {
    f.(status := Remediated, resolvedAt := Some(now))
  }

  /** One covered run without it; at the threshold it counts as gone. */
  function Missed(f: Finding, threshold: nat, now: Time): Finding {
    var g := f.(missed := f.missed + 1);
    if g.missed < threshold then g else Resolved(g, now)
  }

  datatype Coverage = Coverage(
    assets: set<Key>,
    severities: Option<set<Severity>>,
    includeTags: set<string>,
    excludeTags: set<string>,
    rules: set<string>)

  /** The rule's family: its identifier up to the first colon. */
  function Family(rule: string): string {
    if rule == "" || rule[0] == ':' then "" else [rule[0]] + Family(rule[1..])
  }

  predicate Matches(key: FindingKey, f: Finding, cov: Coverage) {
    && (cov.severities.Some? ==> f.severity in cov.severities.value)
    && (cov.includeTags != {} ==> f.tags * cov.includeTags != {})
    && f.tags * cov.excludeTags == {}
    && (cov.rules != {} ==> Family(key.rule) in cov.rules)
  }

  /** The covered open findings of a source that a run did not observe. */
  predicate Unobserved(key: FindingKey, f: Finding, source: string, cov: Coverage, observed: set<FindingKey>) {
    key.asset in cov.assets && key.source == source && Open(f.status) && key !in observed && Matches(key, f, cov)
  }

  function UnobservedOf(book: Book, source: string, cov: Coverage, observed: set<FindingKey>): (r: set<FindingKey>)
    ensures r <= book.Keys
  {
    set k | k in book && Unobserved(k, book[k], source, cov, observed)
  }

  /** These findings were missed by one more run. */
  function MissedIn(book: Book, keys: set<FindingKey>, threshold: nat, now: Time): (r: Book)
    ensures r.Keys == book.Keys
  {
    map k | k in book :: if k in keys then Missed(book[k], threshold, now) else book[k]
  }

  lemma MissOneMore(book: Book, keys: set<FindingKey>, k: FindingKey, threshold: nat, now: Time)
    requires k in book && k !in keys
    ensures MissedIn(book, keys, threshold, now)[k] == book[k]
    ensures MissedIn(book, keys + {k}, threshold, now) ==
            MissedIn(book, keys, threshold, now)[k := Missed(book[k], threshold, now)]
  {
  }

  function ResolveUnobserved(book: Book, source: string, cov: Coverage, observed: set<FindingKey>, threshold: nat, now: Time): Book {
    MissedIn(book, UnobservedOf(book, source, cov, observed), threshold, now)
  }

  /** The rule is of this family: the family's name alone, or followed by a colon. */
  predicate OfFamily(rule: string, family: string) {
    ':' !in family && (rule == family || family + ":" <= rule)
  }

  lemma {:induction false} FamilyMeans(rule: string, family: string)
    ensures Family(rule) == family <==> OfFamily(rule, family)
  {
    if rule != "" && rule[0] != ':' {
      if family == "" {
        assert !OfFamily(rule, family);
      } else {
        FamilyMeans(rule[1..], family[1..]);
        assert rule == [rule[0]] + rule[1..] && family == [family[0]] + family[1..];
        if rule[0] == family[0] {
          assert ':' in family <==> ':' in family[1..];
          assert family + ":" == [family[0]] + (family[1..] + ":");
          assert family[1..] + ":" <= rule[1..] <==> family + ":" <= rule by {
            SamePrefix(rule[0], family[1..] + ":", rule[1..]);
          }
        } else if |rule| > |family| {
          assert (family + ":")[0] != rule[0];
        }
      }
    } else if family != "" && family + ":" <= rule {
      assert rule[0] == (family + ":")[0] == family[0];
    }
  }

  lemma SamePrefix(c: char, a: string, b: string)
    ensures a <= b <==> [c] + a <= [c] + b
  {
    if [c] + a <= [c] + b {
      assert forall i :: 0 <= i < |a| ==> a[i] == ([c] + a)[i + 1] == ([c] + b)[i + 1] == b[i];
    }
  }

  /** The run looked for such findings: of these assets, severities and families, tagged with one of these and none of those. */
  predicate LookedFor(key: FindingKey, severity: Severity, tags: set<string>, cov: Coverage) {
    && key.asset in cov.assets
    && (cov.severities.None? || severity in cov.severities.value)
    && (cov.includeTags == {} || exists t :: t in tags && t in cov.includeTags)
    && (forall t :: t in tags ==> t !in cov.excludeTags)
    && (cov.rules == {} || exists family :: family in cov.rules && OfFamily(key.rule, family))
  }

  lemma UnobservedMeans(key: FindingKey, f: Finding, source: string, cov: Coverage, observed: set<FindingKey>)
    ensures Unobserved(key, f, source, cov, observed) <==>
            key.source == source && key !in observed && (f.status.New? || f.status.Investigating? || f.status.Reopened?) && LookedFor(key, f.severity, f.tags, cov)
  {
    FamilyMeans(key.rule, Family(key.rule));
    forall family | family in cov.rules
      ensures Family(key.rule) == family <==> OfFamily(key.rule, family)
    {
      FamilyMeans(key.rule, family);
    }
    assert f.tags * cov.includeTags != {} <==> exists t :: t in f.tags && t in cov.includeTags by {
      if f.tags * cov.includeTags != {} {
        var t :| t in f.tags * cov.includeTags;
        assert t in f.tags && t in cov.includeTags;
      }
      if t :| t in f.tags && t in cov.includeTags {
        assert t in f.tags * cov.includeTags;
      }
    }
    assert f.tags * cov.excludeTags == {} <==> forall t :: t in f.tags ==> t !in cov.excludeTags by {
      if t :| t in f.tags && t in cov.excludeTags {
        assert t in f.tags * cov.excludeTags;
      }
    }
  }

  /**
   A covered run counts a miss for exactly the open findings of its source that it looked for and did not observe,
   resolves exactly those missed for the last time, and changes nothing else.
   */
  lemma ResolvedExactly(book: Book, source: string, cov: Coverage, observed: set<FindingKey>, threshold: nat, now: Time, k: FindingKey)
    requires k in book
    ensures var f, after := book[k], ResolveUnobserved(book, source, cov, observed, threshold, now)[k];
            var missed := k.source == source && k !in observed && Open(f.status) && LookedFor(k, f.severity, f.tags, cov);
            && (!missed ==> after == f)
            && (missed && f.missed + 1 < threshold ==> after == f.(missed := f.missed + 1))
            && (missed && f.missed + 1 >= threshold ==> after == f.(missed := f.missed + 1, status := Remediated, resolvedAt := Some(now)))
  {
    UnobservedMeans(k, book[k], source, cov, observed);
  }

  /** All open findings of these assets end. */
  function ResolveForAssets(book: Book, gone: set<Key>, now: Time): (r: Book)
    ensures r.Keys == book.Keys
  {
    map k | k in book :: if k.asset in gone && Open(book[k].status) then Resolved(book[k], now) else book[k]
  }

  // ------------------------------------------------------------- by an analyst

  predicate Allowed(from: Status, to: Status) {
    match from
    case New => to.Investigating? || to.AcceptedRisk? || to.FalsePositive? || to.Remediated?
    case Investigating => to.New? || to.AcceptedRisk? || to.FalsePositive? || to.Remediated?
    case Reopened => to.Investigating? || to.AcceptedRisk? || to.FalsePositive? || to.Remediated?
    case AcceptedRisk => to.Reopened? || to.Investigating?
    case FalsePositive => to.Reopened? || to.Investigating?
    case Remediated => to.Reopened?
  }

  datatype Refusal = NotFound | NotAllowed | NeedsAdministrator | NeedsJustification

  datatype Update = Updated(finding: Finding) | Refused(reason: Refusal)

  function UpdateStatus(f: Finding, to: Status, mayAccept: bool, justified: bool, until: Option<Time>, now: Time): Update {
    if to == f.status then Updated(f)
    else if !Allowed(f.status, to) then Refused(NotAllowed)
    else if to.AcceptedRisk? && !mayAccept then Refused(NeedsAdministrator)
    else if to.AcceptedRisk? && !justified then Refused(NeedsJustification)
    else
      Updated(f.(status := to,
                 acceptedUntil := if to.AcceptedRisk? then until else f.acceptedUntil,
                 falsePositive := to.FalsePositive?,
                 resolvedAt := if to.Remediated? then Some(now) else if to.Reopened? then None else f.resolvedAt))
  }

  function ExpireAcceptance(f: Finding, now: Time): Finding {
    if f.status.AcceptedRisk? && f.acceptedUntil.Some? && f.acceptedUntil.value < now
    then f.(status := Reopened, acceptedUntil := None)
    else f
  }

  // ---------------------------------------------------------------- every life

  datatype Event =
    | Detection(severity: Severity, at: Time, unverified: bool)
    | Miss(threshold: nat, at: Time)
    | AssetGone(at: Time)
    | Analyst(to: Status, mayAccept: bool, justified: bool, until: Option<Time>, at: Time)
    | Expiry(at: Time)

  predicate ByScan(e: Event) {
    e.Detection? || e.Miss? || e.AssetGone?
  }

  function Happens(f: Finding, e: Event): Finding {
    match e
    case Detection(severity, at, unverified) => Redetected(f, severity, at, unverified)
    case Miss(threshold, at) => if Open(f.status) then Missed(f, threshold, at) else f
    case AssetGone(at) => if Open(f.status) then Resolved(f, at) else f
    case Analyst(to, mayAccept, justified, until, at) =>
      (match UpdateStatus(f, to, mayAccept, justified, until, at)
       case Updated(g) => g
       case Refused(_) => f)
    case Expiry(at) => ExpireAcceptance(f, at)
  }

  function Live(f: Finding, events: seq<Event>): Finding
    decreases |events|
  {
    if events == [] then f else Live(Happens(f, events[0]), events[1..])
  }

  /** The time of resolution is kept exactly while the finding is remediated, and the false-positive mark exactly in that status. */
  predicate FindingOk(f: Finding) {
    && (f.resolvedAt.Some? <==> f.status.Remediated?)
    && (f.falsePositive <==> f.status.FalsePositive?)
  }

  /** What one event may do. */
  predicate Transition(f: Finding, g: Finding, byScan: bool) {
    && FindingOk(g)
    && (!f.unverified ==> !g.unverified)
    && (byScan && (f.status.AcceptedRisk? || f.status.FalsePositive?) ==> g.status == f.status)
    && (byScan && g.status != f.status ==> (Open(f.status) && g.status.Remediated?) || (f.status.Remediated? && g.status.Reopened?))
    && (f.status.Remediated? && g.status != f.status ==> g.status.Reopened?)
    && (g.status.New? && !f.status.New? ==> f.status.Investigating? && !byScan)
  }

  lemma EventTransition(f: Finding, e: Event)
    requires FindingOk(f)
    ensures Transition(f, Happens(f, e), ByScan(e))
  {
  }

  /**
   In every life of a finding, from its first detection on: a resolution time is set exactly when it
   is remediated, the false-positive mark exactly when it is one, and once verified it stays so.
   */
  lemma {:induction false} EveryLife(f: Finding, events: seq<Event>)
    requires FindingOk(f)
    ensures FindingOk(Live(f, events))
    ensures !f.unverified ==> !Live(f, events).unverified
    ensures (forall n :: 0 <= n < |events| ==> ByScan(events[n])) && (f.status.AcceptedRisk? || f.status.FalsePositive?) ==>
              Live(f, events).status == f.status
    decreases |events|
  {
    if events != [] {
      EventTransition(f, events[0]);
      EveryLife(Happens(f, events[0]), events[1..]);
      if (forall n :: 0 <= n < |events| ==> ByScan(events[n])) && (f.status.AcceptedRisk? || f.status.FalsePositive?) {
        assert forall n :: 0 <= n < |events| - 1 ==> events[1..][n] == events[n + 1];
        assert ByScan(events[0]);
      }
    }
  }

  lemma DetectedLife(severity: Severity, tags: set<string>, now: Time, unverified: bool, events: seq<Event>)
    ensures FindingOk(Live(Detected(severity, tags, now, unverified), events))
  {
    EveryLife(Detected(severity, tags, now, unverified), events);
  }

  /**
   An analyst may take an open finding up, close it in any of three ways or, while investigating, put it back; reopen
   or take up an accepted or false one; and only reopen a remediated one. Accepting a risk takes a right and a reason.
   A change sets the status and what belongs to it; anything else leaves the finding as it is.
   */
  lemma AnalystMoves(f: Finding, to: Status, mayAccept: bool, justified: bool, until: Option<Time>, now: Time)
    requires to != f.status && FindingOk(f)
    ensures var g := Happens(f, Analyst(to, mayAccept, justified, until, now));
            var closed := f.status.AcceptedRisk? || f.status.FalsePositive?;
            var way := if f.status.Remediated? then to.Reopened?
                       else if closed then to.Reopened? || to.Investigating?
                       else !to.Reopened? && (to.New? ==> f.status.Investigating?);
            && (g.status == to <==> way && (to.AcceptedRisk? ==> mayAccept && justified))
            && (g.status != to ==> g == f)
            && (g.status == to ==>
                && g.resolvedAt == (if to.Remediated? then Some(now) else None)
                && g.acceptedUntil == (if to.AcceptedRisk? then until else f.acceptedUntil)
                && g.falsePositive == to.FalsePositive?
                && g.missed == f.missed && g.occurrences == f.occurrences && g.lastSeen == f.lastSeen
                && g.severity == f.severity && g.tags == f.tags && g.unverified == f.unverified)
  {
  }

  /** Why an analyst's change is refused: first the workflow, then the right, then the reason. */
  lemma RefusedWhy(f: Finding, to: Status, mayAccept: bool, justified: bool, until: Option<Time>, now: Time)
    requires to != f.status
    ensures match UpdateStatus(f, to, mayAccept, justified, until, now)
            case Updated(g) => g.status == to
            case Refused(why) =>
              && !why.NotFound?
              && (why.NotAllowed? <==> !Allowed(f.status, to))
              && (why.NeedsAdministrator? <==> Allowed(f.status, to) && !mayAccept)
              && (why.NeedsJustification? <==> Allowed(f.status, to) && mayAccept)
              && (!why.NotAllowed? ==> to.AcceptedRisk?)
  {
  }

  /** An open finding ends exactly at its last allowed miss, and a remediated one comes back exactly by being seen again. */
  lemma ScansMove(f: Finding, threshold: nat, now: Time, severity: Severity, unverified: bool)
    requires FindingOk(f)
    ensures Happens(f, Miss(threshold, now)).status.Remediated? <==> f.status.Remediated? || (Open(f.status) && f.missed + 1 >= threshold)
    ensures Open(f.status) ==> Happens(f, Miss(threshold, now)).missed == f.missed + 1
    ensures Happens(f, AssetGone(now)).status.Remediated? <==> f.status.Remediated? || Open(f.status)
    ensures Open(f.status) ==> Happens(f, AssetGone(now)).resolvedAt == Some(now)
    ensures Happens(f, Detection(severity, now, unverified)).status == if f.status.Remediated? then Reopened else f.status
    ensures Happens(f, Detection(severity, now, unverified)).missed == 0
    ensures Happens(f, Expiry(now)) ==
            if f.status.AcceptedRisk? && f.acceptedUntil.Some? && f.acceptedUntil.value < now then f.(status := Reopened, acceptedUntil := None) else f
  {
  }

  // ----------------------------------------------------------------- the book

  ghost predicate BookOk(book: Book) {
    forall k :: k in book ==> FindingOk(book[k])
  }

  /** Every change a scan makes to the table is, row by row, one event in the row's life. */
  lemma ScansAreEvents(book: Book, key: FindingKey, severity: Severity, tags: set<string>, now: Time, unverified: bool,
                       source: string, cov: Coverage, observed: set<FindingKey>, threshold: nat, gone: set<Key>, k: FindingKey)
    requires k in book
    ensures Upsert(book, key, severity, tags, now, unverified)[k] ==
            if k == key then Happens(book[k], Detection(severity, now, unverified)) else book[k]
    ensures ResolveUnobserved(book, source, cov, observed, threshold, now)[k] ==
            if k in UnobservedOf(book, source, cov, observed) then Happens(book[k], Miss(threshold, now)) else book[k]
    ensures ResolveForAssets(book, gone, now)[k] == if k.asset in gone then Happens(book[k], AssetGone(now)) else book[k]
  {
  }

  lemma BookKept(book: Book, key: FindingKey, severity: Severity, tags: set<string>, now: Time, unverified: bool,
                 source: string, cov: Coverage, observed: set<FindingKey>, threshold: nat, gone: set<Key>)
    requires BookOk(book)
    ensures BookOk(Upsert(book, key, severity, tags, now, unverified))
    ensures BookOk(ResolveUnobserved(book, source, cov, observed, threshold, now))
    ensures BookOk(ResolveForAssets(book, gone, now))
  {
  }

  /** The findings table, changed in place. */
  class Ledger {
    var book: Book

    constructor ()
      ensures book == map[]
    {
      book := map[];
    }

    /** One detection: a new entry or a refreshed one; true for a new verified one and for one that has come back. */
    method UpsertObservation(key: FindingKey, severity: Severity, tags: set<string>, now: Time, unverified: bool) returns (event: bool)
      modifies this
      ensures book == Upsert(old(book), key, severity, tags, now, unverified)
      ensures event == if key in old(book) then old(book)[key].status.Remediated? else !unverified
    {
      if key !in book {
        book := book[key := Detected(severity, tags, now, unverified)];
        return !unverified;
      }
      var f := book[key];
      f := f.(unverified := f.unverified && unverified, lastSeen := now, occurrences := f.occurrences + 1, missed := 0,
              severity := severity);
      event := false;
      if f.status.Remediated? {
        f := f.(status := Reopened, resolvedAt := None);
        event := true;
      }
      book := book[key := f];
    }

    /** Every open finding that is covered and not among the observed is missed once more; those this ends are returned. */
    method ResolveCovered(source: string, cov: Coverage, observed: set<FindingKey>, threshold: nat, now: Time)
      returns (resolved: set<FindingKey>)
      modifies this
      ensures book == ResolveUnobserved(old(book), source, cov, observed, threshold, now)
      ensures forall k :: k in resolved <==>
                k in UnobservedOf(old(book), source, cov, observed) && old(book)[k].missed + 1 >= threshold
    {
      ghost var was, hits := book, UnobservedOf(book, source, cov, observed);
      var rows := set k | k in book && k.asset in cov.assets && k.source == source && Open(book[k].status);
      ghost var done: set<FindingKey> := {};
      resolved := {};
      while rows != {}
        invariant rows <= was.Keys && done <= hits <= done + rows && done !! rows
        invariant book == MissedIn(was, done, threshold, now)
        invariant forall k :: k in resolved <==> k in done && was[k].missed + 1 >= threshold
        invariant forall k :: k in rows ==> k.asset in cov.assets && k.source == source && Open(was[k].status)
        decreases rows
      {
        var k :| k in rows;
        rows := rows - {k};
        if k !in observed && Matches(k, book[k], cov) {
          assert k in hits;
          MissOneMore(was, done, k, threshold, now);
          done := done + {k};
          var gone := CountMiss(k, threshold, now);
          resolved := if gone then resolved + {k} else resolved;
        }
      }
      assert done == hits;
    }

    method CountMiss(key: FindingKey, threshold: nat, now: Time) returns (gone: bool)
      requires key in book
      modifies this
      ensures book == old(book)[key := Missed(old(book)[key], threshold, now)]
      ensures gone <==> old(book)[key].missed + 1 >= threshold
    {
      var f := book[key];
      f := f.(missed := f.missed + 1);
      gone := f.missed >= threshold;
      if gone {
        f := f.(status := Remediated, resolvedAt := Some(now));
      }
      book := book[key := f];
    }

    method ResolveForInactiveAsset(asset: Key, now: Time) returns (resolved: set<FindingKey>)
      modifies this
      ensures book == ResolveForAssets(old(book), {asset}, now)
      ensures resolved == set k | k in old(book) && k.asset == asset && Open(old(book)[k].status)
      ensures forall k :: k in book && k.asset == asset ==> !Open(book[k].status)
    {
      ghost var was := book;
      resolved := set k | k in book && k.asset == asset && Open(book[k].status);
      var todo := resolved;
      while todo != {}
        invariant todo <= resolved && book.Keys == was.Keys
        invariant forall k :: k in was ==> book[k] == if k in resolved && k !in todo then Resolved(was[k], now) else was[k]
        decreases todo
      {
        var k :| k in todo;
        todo := todo - {k};
        book := book[k := book[k].(status := Remediated, resolvedAt := Some(now))];
      }
    }

    method UpdateFinding(key: FindingKey, to: Status, mayAccept: bool, justified: bool, until: Option<Time>, now: Time)
      returns (refusal: Option<Refusal>)
      modifies this
      ensures key !in old(book) ==> refusal == Some(NotFound) && book == old(book)
      ensures key in old(book) ==>
                match UpdateStatus(old(book)[key], to, mayAccept, justified, until, now)
                case Updated(g) => refusal == None && book == old(book)[key := g]
                case Refused(reason) => refusal == Some(reason) && book == old(book)
    {
      if key !in book {
        return Some(NotFound);
      }
      var f := book[key];
      if to == f.status {
        assert book == book[key := f];
        return None;
      }
      if !Allowed(f.status, to) {
        return Some(NotAllowed);
      }
      if to.AcceptedRisk? {
        if !mayAccept {
          return Some(NeedsAdministrator);
        }
        if !justified {
          return Some(NeedsJustification);
        }
        f := f.(acceptedUntil := until);
      }
      f := f.(falsePositive := to.FalsePositive?);
      if to.Remediated? {
        f := f.(resolvedAt := Some(now));
      } else if to.Reopened? {
        f := f.(resolvedAt := None);
      }
      book := book[key := f.(status := to)];
      refusal := None;
    }
  }
}
