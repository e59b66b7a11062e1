/**
 The tamper-evident audit log: one hash chain per tenant and one for the platform
 (backend/app/services/audit.py).
 */
module Audit {
  import opened Prelude

  /** What the digest of an entry covers. */
  datatype Payload = Payload(
    tenant: Option<string>,
    user: Option<string>,
    actor: Option<string>,
    action: string,
    objectType: Option<string>,
    objectId: Option<string>,
    previous: Option<string>,
    current: Option<string>,
    ip: Option<string>,
    success: bool,
    createdAt: int)

  datatype Entry = Entry(
    id: nat,
    number: int,
    link: Option<string>,
    digest: string,
    payload: Payload,
    userAgent: Option<string>,
    requestId: Option<string>)

  /** The digest function, and the canonical text of an entry's payload. */
  datatype Coding = Coding(hash: string -> string, canonical: Payload -> string)

  const DIGEST_LENGTH := 64

  predicate DigestText(s: string) {
    |s| == DIGEST_LENGTH && '{' !in s
  }

  /** Digests have a fixed length and no brace; a canonical text is an object's, and different payloads have different ones. */
  ghost predicate Sound(c: Coding) {
    && (forall s :: DigestText(c.hash(s)))
    && (forall p :: c.canonical(p) != "" && c.canonical(p)[0] == '{')
    && (forall p, q :: c.canonical(p) == c.canonical(q) ==> p == q)
  }

  /** The text that is digested: the previous digest, if any, and the canonical payload. */
  function Digested(c: Coding, link: Option<string>, p: Payload): string {
    link.GetOr("") + c.canonical(p)
  }

  function DigestOf(c: Coding, link: Option<string>, p: Payload): string {
    c.hash(Digested(c, link, p))
  }

  /** One tenant's entries, in order. */
  function Chain(rows: seq<Entry>, tenant: Option<string>): seq<Entry> {
    if rows == [] then []
    else
      var init, last := rows[..|rows| - 1], rows[|rows| - 1];
      if last.payload.tenant == tenant then Chain(init, tenant) + [last] else Chain(init, tenant)
  }

  /** The digest an entry at this place has to link to. */
  function LinkBefore(chain: seq<Entry>, n: nat): Option<string>
    requires n <= |chain|
  {
    if n == 0 then None else Some(chain[n - 1].digest)
  }

  predicate EntryOk(c: Coding, chain: seq<Entry>, n: nat)
    requires n < |chain|
  {
    && chain[n].number == n + 1
    && chain[n].link == LinkBefore(chain, n)
    && chain[n].digest == DigestOf(c, LinkBefore(chain, n), chain[n].payload)
  }

  /** Contiguous numbers, right links, right digests. */
  predicate Intact(c: Coding, chain: seq<Entry>) {
    forall n :: 0 <= n < |chain| ==> EntryOk(c, chain, n)
  }

  // ------------------------------------------------------------- recording

  datatype Request = Request(payload: Payload, userAgent: Option<string>, requestId: Option<string>)

  function Clipped(s: Option<string>): Option<string> {
    if s.None? || s.value == "" then None else if |s.value| > 512 then Some(s.value[..512]) else s
  }

  function Next(c: Coding, rows: seq<Entry>, r: Request): Entry {
    var chain := Chain(rows, r.payload.tenant);
    var link := LinkBefore(chain, |chain|);
    var number := if chain == [] then 1 else chain[|chain| - 1].number + 1;
    Entry(|rows|, number, link, DigestOf(c, link, r.payload), r.payload, Clipped(r.userAgent), r.requestId)
  }

  function RecordAll(c: Coding, rows: seq<Entry>, rs: seq<Request>): seq<Entry>
    decreases |rs|
  {
    if rs == [] then rows else RecordAll(c, rows + [Next(c, rows, rs[0])], rs[1..])
  }

  lemma ChainAppend(rows: seq<Entry>, e: Entry, tenant: Option<string>)
    ensures Chain(rows + [e], tenant) == if e.payload.tenant == tenant then Chain(rows, tenant) + [e] else Chain(rows, tenant)
  {
    assert (rows + [e])[..|rows|] == rows;
  }

  lemma IntactAppend(c: Coding, chain: seq<Entry>, e: Entry)
    ensures Intact(c, chain + [e]) <==>
            && Intact(c, chain)
            && e.number == |chain| + 1
            && e.link == LinkBefore(chain, |chain|)
            && e.digest == DigestOf(c, LinkBefore(chain, |chain|), e.payload)
  {
    var all := chain + [e];
    forall n | 0 <= n < |chain|
      ensures EntryOk(c, all, n) <==> EntryOk(c, chain, n)
    {
      assert all[n] == chain[n];
      assert n > 0 ==> all[n - 1] == chain[n - 1];
    }
    assert EntryOk(c, all, |chain|) <==>
           e.number == |chain| + 1 && e.link == LinkBefore(chain, |chain|) && e.digest == DigestOf(c, LinkBefore(chain, |chain|), e.payload);
  }

  lemma RecordKeeps(c: Coding, rows: seq<Entry>, r: Request, tenant: Option<string>)
    requires Intact(c, Chain(rows, tenant))
    ensures Intact(c, Chain(rows + [Next(c, rows, r)], tenant))
  {
    ChainAppend(rows, Next(c, rows, r), tenant);
    if r.payload.tenant == tenant {
      var chain := Chain(rows, tenant);
      assert chain != [] ==> EntryOk(c, chain, |chain| - 1);
      IntactAppend(c, chain, Next(c, rows, r));
    }
  }

  /** Whatever is recorded, in whatever order and for whichever tenants, every chain is intact. */
  lemma {:induction false} EveryRecordedChainIsIntact(c: Coding, rows: seq<Entry>, rs: seq<Request>, tenant: Option<string>)
    requires Intact(c, Chain(rows, tenant))
    ensures Intact(c, Chain(RecordAll(c, rows, rs), tenant))
    decreases |rs|
  {
    if rs != [] {
      RecordKeeps(c, rows, rs[0], tenant);
      EveryRecordedChainIsIntact(c, rows + [Next(c, rows, rs[0])], rs[1..], tenant);
    }
  }

  // --------------------------------------------------------- tamper evidence

  /** Two entries say the same in everything but the unhashed fields. */
  predicate Agree(a: Entry, b: Entry) {
    a.number == b.number && a.link == b.link && a.digest == b.digest && a.payload == b.payload
  }

  predicate Collide(c: Coding, one: seq<Entry>, i: nat, two: seq<Entry>, j: nat)
    requires i < |one| && j < |two|
  {
    var x, y := Digested(c, one[i].link, one[i].payload), Digested(c, two[j].link, two[j].payload);
    x != y && c.hash(x) == c.hash(y)
  }

  /** Two different texts digested in these chains have the same digest. */
  ghost predicate Collision(c: Coding, one: seq<Entry>, two: seq<Entry>) {
    exists i, j :: 0 <= i < |one| && 0 <= j < |two| && Collide(c, one, i, two, j)
  }

  /** The digested text determines the link and the payload. */
  lemma DigestedInjective(c: Coding, k: Option<string>, p: Payload, l: Option<string>, q: Payload)
    requires Sound(c)
    requires (k.Some? ==> DigestText(k.value)) && (l.Some? ==> DigestText(l.value))
    requires Digested(c, k, p) == Digested(c, l, q)
    ensures k == l && p == q
  {
    var x, y := Digested(c, k, p), Digested(c, l, q);
    var m, n := |k.GetOr("")|, |l.GetOr("")|;
    assert x[m] == '{' && y[n] == '{';
    assert x[..m] == k.GetOr("") && y[..n] == l.GetOr("");
    assert forall a :: 0 <= a < m ==> x[a] == x[..m][a] != '{';
    assert forall a :: 0 <= a < n ==> y[a] == y[..n][a] != '{';
    assert m == n;
    assert x[m..] == c.canonical(p) && y[n..] == c.canonical(q);
  }

  /**
   Two intact chains that share a digest at any two places agree on every hashed field up to there, and the
   places are the same, or else two different digested texts collide. So no edit, removal, insertion or
   reordering before an anchored entry goes unnoticed.
   */
  lemma {:induction false} SharedDigestSharedHistory(c: Coding, one: seq<Entry>, i: nat, two: seq<Entry>, j: nat)
    requires Sound(c) && Intact(c, one) && Intact(c, two) && i < |one| && j < |two|
    requires one[i].digest == two[j].digest
    ensures Collision(c, one, two) || (i == j && forall n :: 0 <= n <= i ==> Agree(one[n], two[n]))
    decreases i
  {
    assert EntryOk(c, one, i) && EntryOk(c, two, j);
    if Collide(c, one, i, two, j) {
      return;
    }
    LinksAreDigests(c, one, i);
    LinksAreDigests(c, two, j);
    DigestedInjective(c, one[i].link, one[i].payload, two[j].link, two[j].payload);
    if i > 0 && j > 0 {
      SharedDigestSharedHistory(c, one, i - 1, two, j - 1);
    }
  }

  lemma LinksAreDigests(c: Coding, chain: seq<Entry>, n: nat)
    requires Sound(c) && Intact(c, chain) && n < |chain|
    ensures chain[n].link.Some? ==> DigestText(chain[n].link.value)
    ensures chain[n].link.None? <==> n == 0
  {
    assert EntryOk(c, chain, n);
    if n > 0 {
      assert EntryOk(c, chain, n - 1);
    }
  }

  /** With the last digest anchored elsewhere, the anchored history is the only one that passes. */
  lemma AnchoredHistoryIsUnique(c: Coding, one: seq<Entry>, two: seq<Entry>)
    requires Sound(c) && Intact(c, one) && Intact(c, two) && one != [] && two != []
    requires one[|one| - 1].digest == two[|two| - 1].digest
    ensures Collision(c, one, two) || (|one| == |two| && forall n :: 0 <= n < |one| ==> Agree(one[n], two[n]))
  {
    SharedDigestSharedHistory(c, one, |one| - 1, two, |two| - 1);
  }

  /** Every beginning of an intact chain is intact, so a cut-off tail shows only against an anchor. */
  lemma TruncationGoesUnnoticed(c: Coding, chain: seq<Entry>, n: nat)
    requires Intact(c, chain) && n <= |chain|
    ensures Intact(c, chain[..n])
  {
    forall m | 0 <= m < n
      ensures EntryOk(c, chain[..n], m)
    {
      assert EntryOk(c, chain, m);
    }
  }

  /** The chain with the content of one entry edited in place. */
  function Edited(chain: seq<Entry>, n: nat, p: Payload, id: nat, userAgent: Option<string>, requestId: Option<string>): seq<Entry>
    requires n < |chain|
  {
    chain[n := chain[n].(payload := p, id := id, userAgent := userAgent, requestId := requestId)]
  }

  /**
   An edit of one entry's content in place goes unnoticed exactly when it leaves the payload as it was, so that
   only fields outside the digest change, or when the two payloads' texts, though different, have one digest.
   */
  lemma EditNoticedExactly(c: Coding, chain: seq<Entry>, n: nat, p: Payload, id: nat, userAgent: Option<string>, requestId: Option<string>)
    requires Sound(c) && Intact(c, chain) && n < |chain|
    ensures var was, now := Digested(c, chain[n].link, chain[n].payload), Digested(c, chain[n].link, p);
            Intact(c, Edited(chain, n, p, id, userAgent, requestId)) <==> p == chain[n].payload || (now != was && c.hash(now) == c.hash(was))
  {
    EditedEntries(c, chain, n, p, id, userAgent, requestId);
    LinksAreDigests(c, chain, n);
    if Digested(c, chain[n].link, p) == Digested(c, chain[n].link, chain[n].payload) {
      DigestedInjective(c, chain[n].link, p, chain[n].link, chain[n].payload);
    }
  }

  lemma EditedEntries(c: Coding, chain: seq<Entry>, n: nat, p: Payload, id: nat, userAgent: Option<string>, requestId: Option<string>)
    requires Intact(c, chain) && n < |chain|
    ensures Intact(c, Edited(chain, n, p, id, userAgent, requestId)) <==>
            c.hash(Digested(c, chain[n].link, p)) == c.hash(Digested(c, chain[n].link, chain[n].payload))
  {
    var edited := Edited(chain, n, p, id, userAgent, requestId);
    assert EntryOk(c, chain, n);
    assert EntryOk(c, edited, n) <==> c.hash(Digested(c, chain[n].link, p)) == chain[n].digest;
    forall m | 0 <= m < |chain| && m != n
      ensures EntryOk(c, edited, m)
    {
      assert EntryOk(c, chain, m);
      assert LinkBefore(edited, m) == LinkBefore(chain, m);
    }
  }

  // --------------------------------------------------------------- the table

  datatype Reason = Gap | BrokenLink | WrongDigest

  /** Why an entry is not right, the first of the three that applies. */
  function ReasonAt(chain: seq<Entry>, n: nat): Reason
    requires n < |chain|
  {
    if chain[n].number != n + 1 then Gap else if chain[n].link != LinkBefore(chain, n) then BrokenLink else WrongDigest
  }

  datatype Report = AllIntact(entries: nat) | Broken(entries: nat, firstBadId: nat, firstBadNumber: int, reason: Reason)

  class Table {
    var rows: seq<Entry>

    constructor ()
      ensures rows == []
    {
      rows := [];
    }

    method Record(c: Coding, r: Request)
      modifies this
      ensures rows == old(rows) + [Next(c, old(rows), r)]
      ensures forall t :: Intact(c, Chain(old(rows), t)) ==> Intact(c, Chain(rows, t))
    {
      var chain := Chain(rows, r.payload.tenant);
      var link, number := None, 0;
      if chain != [] {
        link, number := Some(chain[|chain| - 1].digest), chain[|chain| - 1].number;
      }
      forall t | Intact(c, Chain(rows, t)) {
        RecordKeeps(c, rows, r, t);
      }
      rows := rows + [Entry(|rows|, number + 1, link, DigestOf(c, link, r.payload), r.payload, Clipped(r.userAgent), r.requestId)];
    }

    /** Look at a tenant's entries from the first on; the report names the first one that is not right, and why. */
    method CheckChain(c: Coding, tenant: Option<string>) returns (report: Report)
      ensures report.AllIntact? <==> Intact(c, Chain(rows, tenant))
      ensures report.AllIntact? ==> report.entries == |Chain(rows, tenant)|
      ensures report.Broken? ==> report.entries < |Chain(rows, tenant)| && !EntryOk(c, Chain(rows, tenant), report.entries)
      ensures report.Broken? ==> Intact(c, Chain(rows, tenant)[..report.entries])
      ensures report.Broken? ==> report.firstBadId == Chain(rows, tenant)[report.entries].id
                                 && report.firstBadNumber == Chain(rows, tenant)[report.entries].number
      ensures report.Broken? ==> report.reason == ReasonAt(Chain(rows, tenant), report.entries)
    {
      var chain := Chain(rows, tenant);
      var prev: Option<string>, n := None, 0;
      while n < |chain|
        invariant 0 <= n <= |chain|
        invariant prev == LinkBefore(chain, n)
        invariant forall m :: 0 <= m < n ==> EntryOk(c, chain, m)
      {
        var row := chain[n];
        if row.number != n + 1 || row.link != prev || DigestOf(c, prev, row.payload) != row.digest {
          assert !EntryOk(c, chain, n);
          forall m | 0 <= m < n
            ensures EntryOk(c, chain[..n], m)
          {
            assert EntryOk(c, chain, m);
          }
          var reason := if row.number != n + 1 then Gap else if row.link != prev then BrokenLink else WrongDigest;
          return Broken(n, row.id, row.number, reason);
        }
        assert EntryOk(c, chain, n);
        prev := Some(row.digest);
        n := n + 1;
      }
      return AllIntact(n);
    }
  }
}
