/**
 Which assets an advisory affects, from the products observed on them (backend/app/threats/matching.py).
 */
module Matching {
  import opened Prelude
  import Versions

  datatype Verdict = PotentiallyAffected | VersionUnknown | NotAffectedVersion

  const MAX_EVIDENCE := 5

  datatype Product = Product(vendor: string, product: string, names: seq<string>, ranges: seq<Versions.Range>)

  /** What was seen on an asset; the name is already normalized. */
  datatype Observation = Observation(asset: nat, name: string, version: Option<string>, source: string, observedAt: Option<int>, thirdParty: bool)

  datatype Evidence = Evidence(product: string, vendor: string, seen: Observation, verdict: Verdict)

  datatype AssetVerdict = AssetVerdict(status: Verdict, evidence: seq<Evidence>)

  function Rank(v: Verdict): nat {
    match v case PotentiallyAffected => 3 case VersionUnknown => 2 case NotAffectedVersion => 1
  }

  /** The first product of the advisory that goes by this name. */
  function ProductNamed(products: seq<Product>, name: string): Option<Product> {
    if products == [] then None
    else if name in products[0].names then Some(products[0])
    else ProductNamed(products[1..], name)
  }

  predicate InSomeRange(v: Versions.Version, ranges: seq<Versions.Range>) {
    exists n :: 0 <= n < |ranges| && Versions.InRange(v, ranges[n])
  }

  function Judge(p: Product, version: Option<string>): Verdict {
    if p.ranges == [] then PotentiallyAffected
    else if version.None? || version.value == "" then VersionUnknown
    else
      match Versions.Parse(version.value)
      case None => VersionUnknown
      case Some(v) => if InSomeRange(v, p.ranges) then PotentiallyAffected else NotAffectedVersion
  }

  /** What one observation says about its asset, if it is of an affected product at all. */
  function Says(products: seq<Product>, o: Observation): Option<Evidence> {
    match ProductNamed(products, o.name)
    case None => None
    case Some(p) => Some(Evidence(p.product, p.vendor, o, Judge(p, o.version)))
  }

  /** The observation bears on the asset with this evidence. */
  predicate Bears(products: seq<Product>, o: Observation, asset: nat, e: Evidence) {
    o.asset == asset && Says(products, o) == Some(e)
  }

  /** Some of the observations bears on the asset with this evidence. */
  predicate Supported(products: seq<Product>, obs: seq<Observation>, asset: nat, e: Evidence) {
    exists n :: 0 <= n < |obs| && Bears(products, obs[n], asset, e)
  }

  /** No observation says anything stronger about the asset. */
  ghost predicate Strongest(products: seq<Product>, obs: seq<Observation>, asset: nat, v: Verdict) {
    forall e :: Supported(products, obs, asset, e) ==> Rank(e.verdict) <= Rank(v)
  }

  /**
   The verdict on an asset is the strongest that any observation supports; one to five different pieces of
   evidence back it, all of them about this asset and all there are if fewer than five, and the first carries
   the verdict.
   */
  ghost predicate Sound(products: seq<Product>, obs: seq<Observation>, asset: nat, v: AssetVerdict) {
    && 1 <= |v.evidence| <= 5
    && v.evidence[0].verdict == v.status
    && Distinct(v.evidence)
    && (forall e :: e in v.evidence ==> Supported(products, obs, asset, e))
    && (|v.evidence| == 5 || forall e :: Supported(products, obs, asset, e) ==> e in v.evidence)
    && Strongest(products, obs, asset, v.status)
  }

  type Verdicts = map<nat, AssetVerdict>

  /** Exactly the assets with some observation of an affected product have a verdict, and each is sound. */
  ghost predicate Complete(products: seq<Product>, obs: seq<Observation>, out: Verdicts) {
    && (forall a :: a in out ==> Sound(products, obs, a, out[a]))
    && (forall a, e :: Supported(products, obs, a, e) ==> a in out)
  }

  lemma SupportedOneMore(products: seq<Product>, obs: seq<Observation>, o: Observation, asset: nat, e: Evidence)
    ensures Supported(products, obs + [o], asset, e) <==> Supported(products, obs, asset, e) || Bears(products, o, asset, e)
  {
    var all := obs + [o];
    if Supported(products, obs, asset, e) {
      var n :| 0 <= n < |obs| && Bears(products, obs[n], asset, e);
      assert all[n] == obs[n];
    }
    if Bears(products, o, asset, e) {
      assert all[|obs|] == o;
    }
  }

  /** An asset the new observation does not bear on keeps a sound verdict. */
  lemma SoundKept(products: seq<Product>, obs: seq<Observation>, o: Observation, asset: nat, v: AssetVerdict)
    requires Sound(products, obs, asset, v) && (o.asset != asset || Says(products, o).None?)
    ensures Sound(products, obs + [o], asset, v)
  {
    forall e {
      SupportedOneMore(products, obs, o, asset, e);
    }
  }

  /** The verdict with one more piece of evidence. */
  function Weigh(v: AssetVerdict, e: Evidence): AssetVerdict {
    if Rank(e.verdict) > Rank(v.status) then AssetVerdict(e.verdict, Clip([e] + v.evidence))
    else if |v.evidence| < MAX_EVIDENCE && e !in v.evidence then AssetVerdict(v.status, Clip(v.evidence + [e]))
    else AssetVerdict(v.status, Clip(v.evidence))
  }

  function Clip(es: seq<Evidence>): seq<Evidence> {
    if |es| > MAX_EVIDENCE then es[..MAX_EVIDENCE] else es
  }

  lemma ClipKeeps(es: seq<Evidence>)
    requires Distinct(es) && es != []
    ensures Distinct(Clip(es)) && 1 <= |Clip(es)| <= MAX_EVIDENCE && Clip(es)[0] == es[0]
    ensures forall e :: e in Clip(es) ==> e in es
  {
  }

  lemma WeighSound(products: seq<Product>, obs: seq<Observation>, o: Observation, v: AssetVerdict, e: Evidence)
    requires Sound(products, obs, o.asset, v) && Says(products, o) == Some(e)
    ensures Sound(products, obs + [o], o.asset, Weigh(v, e))
  {
    forall x
      ensures Supported(products, obs + [o], o.asset, x) <==> Supported(products, obs, o.asset, x) || x == e
    {
      SupportedOneMore(products, obs, o, o.asset, x);
    }
    if Rank(e.verdict) > Rank(v.status) {
      assert e in v.evidence ==> Supported(products, obs, o.asset, e);
      ClipKeeps([e] + v.evidence);
    } else if |v.evidence| < MAX_EVIDENCE && e !in v.evidence {
      ClipKeeps(v.evidence + [e]);
    }
  }

  lemma FirstSound(products: seq<Product>, obs: seq<Observation>, o: Observation, e: Evidence)
    requires Says(products, o) == Some(e) && forall x :: !Supported(products, obs, o.asset, x)
    ensures Sound(products, obs + [o], o.asset, AssetVerdict(e.verdict, [e]))
  {
    forall x
      ensures Supported(products, obs + [o], o.asset, x) <==> x == e
    {
      SupportedOneMore(products, obs, o, o.asset, x);
    }
  }

  /** The verdicts with one more observation. */
  function Updated(products: seq<Product>, out: Verdicts, o: Observation): Verdicts {
    match Says(products, o)
    case None => out
    case Some(e) => out[o.asset := if o.asset in out then Weigh(out[o.asset], e) else AssetVerdict(e.verdict, [e])]
  }

  lemma CompleteOneMore(products: seq<Product>, obs: seq<Observation>, out: Verdicts, o: Observation, after: Verdicts)
    requires Complete(products, obs, out)
    requires after == Updated(products, out, o)
    ensures Complete(products, obs + [o], after)
  {
    forall a | a in after
      ensures Sound(products, obs + [o], a, after[a])
    {
      if Says(products, o).None? || a != o.asset {
        SoundKept(products, obs, o, a, out[a]);
      } else if a in out {
        WeighSound(products, obs, o, out[a], Says(products, o).value);
      } else {
        FirstSound(products, obs, o, Says(products, o).value);
      }
    }
    forall a, e | Supported(products, obs + [o], a, e)
      ensures a in after
    {
      SupportedOneMore(products, obs, o, a, e);
    }
  }

  /** One observation: a new verdict, or a stronger one, or one more piece of evidence. */
  method MatchOne(products: seq<Product>, o: Observation, out: Verdicts) returns (after: Verdicts)
    ensures after == Updated(products, out, o)
  {
    after := out;
    var said := Says(products, o);
    if said.Some? {
      var e := said.value;
      if o.asset !in out {
        after := out[o.asset := AssetVerdict(e.verdict, [e])];
      } else {
        var status, evidence := out[o.asset].status, out[o.asset].evidence;
        if Rank(e.verdict) > Rank(status) {
          status := e.verdict;
          evidence := [e] + evidence;
        } else if |evidence| < MAX_EVIDENCE && e !in evidence {
          evidence := evidence + [e];
        }
        if |evidence| > MAX_EVIDENCE {
          evidence := evidence[..MAX_EVIDENCE];
        }
        after := out[o.asset := AssetVerdict(status, evidence)];
      }
    }
  }

  /** All observations, one after the other. */
  method Match(products: seq<Product>, obs: seq<Observation>) returns (out: Verdicts)
    ensures Complete(products, obs, out)
  {
    out := map[];
    var n := 0;
    while n < |obs|
      invariant 0 <= n <= |obs|
      invariant Complete(products, obs[..n], out)
    {
      ghost var before := out;
      out := MatchOne(products, obs[n], out);
      CompleteOneMore(products, obs[..n], before, obs[n], out);
      assert obs[..n + 1] == obs[..n] + [obs[n]];
      n := n + 1;
    }
    assert obs[..n] == obs;
  }

  /** The verdicts do not depend on the order of the observations. */
  lemma VerdictsIgnoreOrder(products: seq<Product>, obs: seq<Observation>, out: Verdicts, others: seq<Observation>, out': Verdicts, a: nat)
    requires Complete(products, obs, out) && Complete(products, others, out') && multiset(obs) == multiset(others)
    ensures a in out <==> a in out'
    ensures a in out ==> out[a].status == out'[a].status
  {
    forall e
      ensures Supported(products, obs, a, e) <==> Supported(products, others, a, e)
    {
      SupportedEither(products, obs, others, a, e);
      SupportedEither(products, others, obs, a, e);
    }
    if a in out {
      assert out[a].evidence[0] in out[a].evidence;
      assert Supported(products, others, a, out[a].evidence[0]);
    }
    if a in out' {
      assert out'[a].evidence[0] in out'[a].evidence;
      assert Supported(products, obs, a, out'[a].evidence[0]);
    }
  }

  lemma SupportedEither(products: seq<Product>, obs: seq<Observation>, others: seq<Observation>, a: nat, e: Evidence)
    requires multiset(obs) == multiset(others)
    ensures Supported(products, obs, a, e) ==> Supported(products, others, a, e)
  {
    if Supported(products, obs, a, e) {
      var n :| 0 <= n < |obs| && Bears(products, obs[n], a, e);
      assert obs[n] in multiset(others);
    }
  }

  /** The observation is of a product listed in every version, or at a version inside one of its ranges. */
  predicate Hits(products: seq<Product>, o: Observation) {
    var p := ProductNamed(products, o.name);
    p.Some? && (p.value.ranges == [] || (Usable(o.version) && InSomeRange(Versions.Parse(o.version.value).value, p.value.ranges)))
  }

  /** The observation is of a product listed with ranges, and its version is known and in none of them. */
  predicate Clears(products: seq<Product>, o: Observation) {
    var p := ProductNamed(products, o.name);
    p.Some? && p.value.ranges != [] && Usable(o.version) && !InSomeRange(Versions.Parse(o.version.value).value, p.value.ranges)
  }

  predicate Usable(version: Option<string>) {
    version.Some? && version.value != "" && Versions.Parse(version.value).Some?
  }

  /** The product lists the name, and none before it does. */
  predicate FirstToName(products: seq<Product>, name: string, n: nat) {
    n < |products| && name in products[n].names && forall m :: 0 <= m < n ==> name !in products[m].names
  }

  predicate NamedIn(e: Evidence, p: Product) {
    e.product == p.product && e.vendor == p.vendor
  }

  /** The product an observation is of: the first that lists its name. */
  lemma {:induction false} FirstNamed(products: seq<Product>, name: string)
    ensures match ProductNamed(products, name)
            case None => forall n :: 0 <= n < |products| ==> name !in products[n].names
            case Some(p) => exists n :: 0 <= n < |products| && products[n] == p && FirstToName(products, name, n)
  {
    if products != [] && name !in products[0].names {
      var rest := products[1..];
      FirstNamed(rest, name);
      assert forall n :: 0 <= n < |rest| ==> rest[n] == products[n + 1];
      if ProductNamed(rest, name).Some? {
        var n :| 0 <= n < |rest| && rest[n] == ProductNamed(rest, name).value && FirstToName(rest, name, n);
        forall m | 0 <= m < n + 1
          ensures name !in products[m].names
        {
          assert m > 0 ==> products[m] == rest[m - 1];
        }
        assert FirstToName(products, name, n + 1);
      }
    } else if products != [] {
      assert FirstToName(products, name, 0);
    }
  }

  /** What an observation says: the strongest verdict if it hits, the weakest if it clears. */
  lemma SaysExactly(products: seq<Product>, o: Observation)
    ensures Hits(products, o) <==> Says(products, o).Some? && Says(products, o).value.verdict.PotentiallyAffected?
    ensures Clears(products, o) <==> Says(products, o).Some? && Says(products, o).value.verdict.NotAffectedVersion?
    ensures Says(products, o).Some? <==> exists n :: 0 <= n < |products| && o.name in products[n].names
    ensures Says(products, o).Some? ==> Says(products, o).value.seen == o
    ensures Says(products, o).Some? ==> exists n :: 0 <= n < |products| && FirstToName(products, o.name, n) && NamedIn(Says(products, o).value, products[n])
  {
    FirstNamed(products, o.name);
  }

  /** The verdict is what one observation says, and no other says anything stronger. */
  lemma VerdictIsSaid(products: seq<Product>, obs: seq<Observation>, out: Verdicts, a: nat) returns (m: nat)
    requires Complete(products, obs, out) && a in out
    ensures m < |obs| && obs[m].asset == a && Says(products, obs[m]).Some? && Says(products, obs[m]).value.verdict == out[a].status
    ensures forall n :: 0 <= n < |obs| && obs[n].asset == a && Says(products, obs[n]).Some? ==>
              Rank(Says(products, obs[n]).value.verdict) <= Rank(out[a].status)
  {
    var e := out[a].evidence[0];
    assert e in out[a].evidence;
    m :| 0 <= m < |obs| && Bears(products, obs[m], a, e);
    forall n | 0 <= n < |obs| && obs[n].asset == a && Says(products, obs[n]).Some?
      ensures Rank(Says(products, obs[n]).value.verdict) <= Rank(out[a].status)
    {
      assert Bears(products, obs[n], a, Says(products, obs[n]).value);
      assert Supported(products, obs, a, Says(products, obs[n]).value);
    }
  }

  /**
   An asset is affected exactly when some observation on it hits, and cleared exactly when all that are of
   listed products clear it.
   */
  lemma VerdictExactly(products: seq<Product>, obs: seq<Observation>, out: Verdicts, a: nat)
    requires Complete(products, obs, out) && a in out
    ensures out[a].status.PotentiallyAffected? <==> exists n :: 0 <= n < |obs| && obs[n].asset == a && Hits(products, obs[n])
    ensures out[a].status.NotAffectedVersion? <==>
            forall n :: 0 <= n < |obs| && obs[n].asset == a && Says(products, obs[n]).Some? ==> Clears(products, obs[n])
  {
    var m := VerdictIsSaid(products, obs, out, a);
    forall n | 0 <= n < |obs|
      ensures Hits(products, obs[n]) <==> Says(products, obs[n]).Some? && Says(products, obs[n]).value.verdict.PotentiallyAffected?
      ensures Clears(products, obs[n]) <==> Says(products, obs[n]).Some? && Says(products, obs[n]).value.verdict.NotAffectedVersion?
    {
      SaysExactly(products, obs[n]);
    }
  }
}
