/**
 Authorization scope: may this host or network be scanned (backend/app/scope/checker.py).
 */
module Scope {
  import opened Prelude

  datatype Version = V4 | V6

  /** A network: the block-th block of addresses that share a prefix of this length. */
  datatype Net = Net(version: Version, prefix: nat, block: nat)

  datatype Host = Name(text: string) | Address(version: Version, value: nat)

  datatype Entry = Domain(value: string) | Network(net: Net)

  datatype Rule = Rule(id: nat, entry: Entry, includeSubdomains: bool, isExclusion: bool, allowActive: bool, verified: bool)

  /** The rules of an organization and its settings; which networks are publicly routable is given. */
  datatype Checker = Checker(rules: seq<Rule>, requireVerification: bool, derivedScanning: bool, allowNonPublic: bool, isGlobal: Net -> bool)

  // --------------------------------------------------------------- addresses

  function Width(v: Version): nat {
    match v case V4 => 32 case V6 => 128
  }

  function Power2(n: nat): (r: nat)
    ensures r >= 1
  {
    if n == 0 then 1 else 2 * Power2(n - 1)
  }

  function Size(net: Net): (r: nat)
    ensures r >= 1
  {
    if net.prefix >= Width(net.version) then 1 else Power2(Width(net.version) - net.prefix)
  }

  function First(net: Net): nat {
    net.block * Size(net)
  }

  function Last(net: Net): int {
    First(net) + Size(net) - 1
  }

  predicate InNet(net: Net, v: Version, a: nat) {
    net.version == v && First(net) <= a <= Last(net)
  }

  /** Some end of one lies in the other. */
  predicate Overlaps(m: Net, n: Net) {
    || InNet(m, n.version, First(n)) || InNet(m, n.version, Last(n))
    || InNet(n, m.version, First(m)) || InNet(n, m.version, Last(m))
  }

  predicate SubnetOf(m: Net, n: Net) {
    m.version == n.version && First(n) <= First(m) && Last(m) <= Last(n)
  }

  lemma OverlapsMeans(m: Net, n: Net)
    ensures Overlaps(m, n) <==> exists a: nat :: InNet(m, n.version, a) && InNet(n, n.version, a)
  {
    if a: nat :| InNet(m, n.version, a) && InNet(n, n.version, a) {
      assert First(m) <= First(n) ==> InNet(m, n.version, First(n));
      assert First(n) <= First(m) ==> InNet(n, m.version, First(m));
    }
    if Overlaps(m, n) {
      var a: nat := if First(m) <= First(n) then First(n) else First(m);
      assert InNet(m, n.version, a) && InNet(n, n.version, a);
    }
  }

  /** Blocks of the same size that share an address are the same block. */
  lemma SameBlock(m: Net, n: Net, v: Version, a: nat)
    requires InNet(m, v, a) && InNet(n, v, a) && m.prefix == n.prefix
    ensures m == n
  {
    var size := Size(m);
    BlockOf(m.block, size, a);
    BlockOf(n.block, size, a);
  }

  lemma BlockOf(block: nat, size: nat, a: nat)
    requires size >= 1 && block * size <= a <= block * size + size - 1
    ensures a / size == block
  {
    assert a == block * size + (a - block * size);
    DivOf(block, size, a - block * size);
  }

  lemma {:induction false} DivOf(q: nat, size: nat, rest: nat)
    requires size >= 1 && rest < size
    ensures (q * size + rest) / size == q
  {
    var a := q * size + rest;
    var d := a / size;
    assert a == d * size + a % size && 0 <= a % size < size;
    assert d < q ==> (d + 1) * size <= q * size;
    assert d > q ==> (q + 1) * size <= d * size;
  }

  /** An address is in a network exactly when it agrees with it in the bits of the prefix. */
  lemma InNetMeans(net: Net, v: Version, a: nat)
    requires net.prefix <= Width(net.version)
    ensures InNet(net, v, a) <==> net.version == v && a / Power2(Width(net.version) - net.prefix) == net.block
  {
    var size := Size(net);
    assert size == Power2(Width(net.version) - net.prefix) by {
      assert Power2(0) == 1;
    }
    if InNet(net, v, a) {
      BlockOf(net.block, size, a);
    } else if a / size == net.block {
      assert a == net.block * size + a % size && 0 <= a % size < size;
    }
  }

  lemma {:induction false} PowersMultiply(m: nat, n: nat)
    ensures Power2(m + n) == Power2(m) * Power2(n)
  {
    if m > 0 {
      PowersMultiply(m - 1, n);
      assert m + n - 1 == (m - 1) + n;
    }
  }

  /** A /24 of version 4 has 256 addresses, version 4 has 2^32 of them, and a /64 of version 6 as many again, squared. */
  lemma NetworkSizes(block: nat)
    ensures Size(Net(V4, 32, block)) == 1 && Size(Net(V4, 24, block)) == 256 && Size(Net(V4, 0, 0)) == 0x1_0000_0000
    ensures Size(Net(V6, 128, block)) == 1 && Size(Net(V6, 64, block)) == 0x1_0000_0000 * 0x1_0000_0000
  {
    SmallPowers();
    PowersMultiply(16, 16);
    PowersMultiply(32, 32);
  }

  lemma SmallPowers()
    ensures Power2(8) == 256 && Power2(16) == 65536
  {
    assert Power2(4) == 16 by {
      assert Power2(0) == 1 && Power2(1) == 2 && Power2(2) == 4 && Power2(3) == 8;
    }
    PowersMultiply(4, 4);
    PowersMultiply(8, 8);
  }

  /** One network is inside another exactly when all its addresses are. */
  lemma SubnetMeans(m: Net, n: Net)
    ensures SubnetOf(m, n) <==> forall a: nat :: InNet(m, m.version, a) ==> InNet(n, m.version, a)
  {
    assert InNet(m, m.version, First(m)) && InNet(m, m.version, Last(m));
  }

  // ---------------------------------------------------------------- matching

  predicate EndsWith(s: string, suffix: string) {
    |suffix| <= |s| && s[|s| - |suffix|..] == suffix
  }

  predicate Matches(r: Rule, host: Host) {
    match host
    case Name(text) => r.entry.Domain? && (text == r.entry.value || (r.includeSubdomains && EndsWith(text, "." + r.entry.value)))
    case Address(v, a) => r.entry.Network? && InNet(r.entry.net, v, a)
  }

  /** A name split at its dots. */
  function Labels(text: string): (r: seq<string>)
    ensures r != []
  {
    if text == "" then [""]
    else
      var rest := Labels(text[1..]);
      if text[0] == '.' then [""] + rest else [[text[0]] + rest[0]] + rest[1..]
  }

  function Dotted(labels: seq<string>): string
    requires labels != []
  {
    if |labels| == 1 then labels[0] else labels[0] + "." + Dotted(labels[1..])
  }

  lemma {:induction false} LabelsRoundTrip(text: string)
    ensures Dotted(Labels(text)) == text
  {
    if text != "" {
      LabelsRoundTrip(text[1..]);
      var rest := Labels(text[1..]);
      if text[0] == '.' {
        assert ([""] + rest)[1..] == rest;
      } else {
        assert ([[text[0]] + rest[0]] + rest[1..])[1..] == rest[1..];
      }
      assert text == [text[0]] + text[1..];
    }
  }

  lemma FirstLabelFirst(front: seq<string>, back: seq<string>, c: char)
    requires front != []
    ensures [[c] + (front + back)[0]] + (front + back)[1..] == [[c] + front[0]] + front[1..] + back
    ensures [""] + (front + back) == [""] + front + back
  {
  }

  lemma {:induction false} LabelsOfDotted(front: string, back: string)
    ensures Labels(front + "." + back) == Labels(front) + Labels(back)
  {
    var text := front + "." + back;
    if front == "" {
      assert text[1..] == back;
    } else {
      assert text[0] == front[0] && text[1..] == front[1..] + "." + back;
      LabelsOfDotted(front[1..], back);
      FirstLabelFirst(Labels(front[1..]), Labels(back), front[0]);
    }
  }

  lemma {:induction false} DottedJoins(front: seq<string>, back: seq<string>)
    requires front != [] && back != []
    ensures Dotted(front + back) == Dotted(front) + ("." + Dotted(back))
  {
    if |front| == 1 {
      assert (front + back)[1..] == back;
    } else {
      DottedJoins(front[1..], back);
      assert (front + back)[1..] == front[1..] + back;
    }
  }

  /** The labels of `domain` are the last ones of the longer `text`. */
  predicate Below(text: string, domain: string) {
    var long, short := Labels(text), Labels(domain);
    |short| < |long| && long[|long| - |short|..] == short
  }

  lemma DottedIsBelow(text: string, domain: string)
    requires EndsWith(text, "." + domain)
    ensures Below(text, domain)
  {
    var front := text[..|text| - |"." + domain|];
    assert text == front + "." + domain;
    LabelsOfDotted(front, domain);
  }

  lemma BelowIsDotted(text: string, domain: string)
    requires Below(text, domain)
    ensures EndsWith(text, "." + domain)
  {
    var long, short := Labels(text), Labels(domain);
    var front := long[..|long| - |short|];
    assert long == front + short;
    LabelsRoundTrip(text);
    LabelsRoundTrip(domain);
    DottedJoins(front, short);
    assert text[|Dotted(front)|..] == "." + domain;
  }

  lemma EndsWithDotted(text: string, domain: string)
    ensures EndsWith(text, "." + domain) <==> Below(text, domain)
  {
    if EndsWith(text, "." + domain) {
      DottedIsBelow(text, domain);
    }
    if Below(text, domain) {
      BelowIsDotted(text, domain);
    }
  }

  /** A name matches an entry exactly when it is the entry's domain or, if that includes subdomains, a name below it. */
  lemma NameMatches(r: Rule, text: string)
    ensures Matches(r, Name(text)) <==>
            r.entry.Domain? && (text == r.entry.value || (r.includeSubdomains && Below(text, r.entry.value)))
  {
    if r.entry.Domain? {
      EndsWithDotted(text, r.entry.value);
    }
  }

  /** An address matches exactly the networks it is in, bit by bit. */
  lemma AddressMatches(r: Rule, v: Version, a: nat)
    requires r.entry.Network? ==> r.entry.net.prefix <= Width(r.entry.net.version)
    ensures Matches(r, Address(v, a)) <==>
            r.entry.Network? && r.entry.net.version == v && a / Power2(Width(v) - r.entry.net.prefix) == r.entry.net.block
  {
    if r.entry.Network? {
      InNetMeans(r.entry.net, v, a);
    }
  }

  /** How specific an entry is: the length of a domain, or of a network's prefix. */
  function Specificity(r: Rule): nat {
    match r.entry case Domain(value) => |value| case Network(net) => net.prefix
  }

  function Matching(rules: seq<Rule>, host: Host, exclusion: bool): seq<Rule> {
    if rules == [] then []
    else
      var init, last := Matching(rules[..|rules| - 1], host, exclusion), rules[|rules| - 1];
      if last.isExclusion == exclusion && Matches(last, host) then init + [last] else init
  }

  lemma {:induction false} MatchingIs(rules: seq<Rule>, host: Host, exclusion: bool)
    ensures forall x :: x in Matching(rules, host, exclusion) <==> x in rules && x.isExclusion == exclusion && Matches(x, host)
  {
    if rules != [] {
      MatchingIs(rules[..|rules| - 1], host, exclusion);
      assert rules == rules[..|rules| - 1] + [rules[|rules| - 1]];
    }
  }

  /** Most specific first; equally specific ones keep their order. */
  function BySpecificity(rs: seq<Rule>): (r: seq<Rule>)
    ensures |r| == |rs|
  {
    if rs == [] then [] else Place(rs[0], BySpecificity(rs[1..]))
  }

  function Place(x: Rule, rs: seq<Rule>): (r: seq<Rule>)
    ensures |r| == |rs| + 1
  {
    if rs == [] || Specificity(rs[0]) <= Specificity(x) then [x] + rs else [rs[0]] + Place(x, rs[1..])
  }

  function Hits(rules: seq<Rule>, host: Host, exclusion: bool): seq<Rule> {
    BySpecificity(Matching(rules, host, exclusion))
  }

  lemma {:induction false} BySpecificityHead(rs: seq<Rule>)
    requires rs != []
    ensures BySpecificity(rs)[0] in rs
    ensures forall x :: x in rs ==> Specificity(x) <= Specificity(BySpecificity(rs)[0])
  {
    if |rs| > 1 {
      BySpecificityHead(rs[1..]);
    }
    assert rs == [rs[0]] + rs[1..];
  }

  /** The first hit is a matching rule, and no matching rule is more specific. */
  lemma FirstHit(rules: seq<Rule>, host: Host, exclusion: bool)
    ensures Hits(rules, host, exclusion) == [] <==> forall x :: x in rules && x.isExclusion == exclusion ==> !Matches(x, host)
    ensures Hits(rules, host, exclusion) != [] ==> MostSpecific(rules, host, exclusion, Hits(rules, host, exclusion)[0])
  {
    var m := Matching(rules, host, exclusion);
    MatchingIs(rules, host, exclusion);
    if m != [] {
      BySpecificityHead(m);
      assert m[0] in m;
    }
  }

  ghost predicate MostSpecific(rules: seq<Rule>, host: Host, exclusion: bool, r: Rule) {
    && r in rules && r.isExclusion == exclusion && Matches(r, host)
    && forall x :: x in rules && x.isExclusion == exclusion && Matches(x, host) ==> Specificity(x) <= Specificity(r)
  }

  // --------------------------------------------------------------- decisions

  datatype Status = InScope | Derived | OutOfScope

  datatype Reason = Excluded | NotCovered | NoActiveScanning | NotVerified | Within | NoDerivedScanning | ResolvedFrom(parent: Host) | NotPublic

  datatype Decision = Decision(allowed: bool, reason: Reason, status: Status, rule: Option<Rule>)

  predicate Permits(c: Checker, r: Rule, active: bool) {
    active ==> r.allowActive && (c.requireVerification ==> r.verified)
  }

  function Authorize(c: Checker, r: Rule, active: bool): Decision {
    if active && !r.allowActive then Decision(false, NoActiveScanning, InScope, Some(r))
    else if active && c.requireVerification && !r.verified then Decision(false, NotVerified, InScope, Some(r))
    else Decision(true, Within, InScope, Some(r))
  }

  function PublicOnly(c: Checker, net: Net, active: bool, d: Decision): Decision {
    if !d.allowed || !active || c.allowNonPublic || c.isGlobal(net) then d
    else Decision(false, NotPublic, d.status, d.rule)
  }

  function Single(host: Host): Net
    requires host.Address?
  {
    Net(host.version, Width(host.version), host.value)
  }

  function CheckHost(c: Checker, host: Host, active: bool, parents: seq<Host>): Decision
    decreases |parents|, 1
  {
    if Hits(c.rules, host, true) != [] then Decision(false, Excluded, OutOfScope, None)
    else if Hits(c.rules, host, false) != [] then
      var d := Authorize(c, Hits(c.rules, host, false)[0], active);
      if host.Name? then d else PublicOnly(c, Single(host), active, d)
    else if host.Name? then Decision(false, NotCovered, OutOfScope, None)
    else CheckDerived(c, host, active, parents)
  }

  /** An address not in scope itself: the first parent that may be scanned decides. */
  function CheckDerived(c: Checker, host: Host, active: bool, parents: seq<Host>): Decision
    requires host.Address?
    decreases |parents|, 0
  {
    if parents == [] then Decision(false, NotCovered, OutOfScope, None)
    else
      var d := CheckHost(c, parents[0], active, []);
      if !d.allowed then CheckDerived(c, host, active, parents[1..])
      else if active && !c.derivedScanning then Decision(false, NoDerivedScanning, Derived, d.rule)
      else PublicOnly(c, Single(host), active, Decision(true, ResolvedFrom(parents[0]), Derived, d.rule))
  }

  /** The first rule, in the order given, of those that apply to a network. */
  function FirstContaining(rules: seq<Rule>, net: Net): Option<Rule> {
    if rules == [] then None
    else if Contains(rules[0], net) then Some(rules[0])
    else FirstContaining(rules[1..], net)
  }

  predicate Contains(r: Rule, net: Net) {
    r.entry.Network? && !r.isExclusion && SubnetOf(net, r.entry.net)
  }

  predicate Blocks(r: Rule, net: Net) {
    r.entry.Network? && r.isExclusion && Overlaps(r.entry.net, net)
  }

  function CheckNetwork(c: Checker, net: Net, active: bool): Decision {
    if exists r :: r in c.rules && Blocks(r, net) then Decision(false, Excluded, OutOfScope, None)
    else
      match FirstContaining(c.rules, net)
      case None => Decision(false, NotCovered, OutOfScope, None)
      case Some(r) => PublicOnly(c, net, active, Authorize(c, r, active))
  }

  // --------------------------------------------------------- what is promised

  lemma {:induction false} FirstContainingMeans(rules: seq<Rule>, net: Net)
    ensures FirstContaining(rules, net).None? <==> forall r :: r in rules ==> !Contains(r, net)
    ensures FirstContaining(rules, net).Some? ==> FirstContaining(rules, net).value in rules && Contains(FirstContaining(rules, net).value, net)
  {
    if rules != [] {
      FirstContainingMeans(rules[1..], net);
      assert rules == [rules[0]] + rules[1..];
    }
  }

  /** The deciding entry of a network is the first listed one that contains it. */
  lemma {:induction false} FirstListedDecides(rules: seq<Rule>, net: Net, n: nat)
    requires n < |rules| && Contains(rules[n], net) && forall m :: 0 <= m < n ==> !Contains(rules[m], net)
    ensures FirstContaining(rules, net) == Some(rules[n])
  {
    if n > 0 {
      assert rules[1..][n - 1] == rules[n] && forall m :: 0 <= m < n - 1 ==> rules[1..][m] == rules[m + 1];
      FirstListedDecides(rules[1..], net, n - 1);
    }
  }

  /** Every address of an allowed network is in one inclusion entry and in no exclusion entry. */
  lemma AllowedNetworkIsAuthorized(c: Checker, net: Net, active: bool)
    requires CheckNetwork(c, net, active).allowed
    ensures forall a: nat, x :: InNet(net, net.version, a) && x in c.rules && x.isExclusion ==> !Matches(x, Address(net.version, a))
    ensures exists r :: r in c.rules && Contains(r, net) && Permits(c, r, active) && forall a: nat :: InNet(net, net.version, a) ==> Matches(r, Address(net.version, a))
    ensures active && !c.allowNonPublic ==> c.isGlobal(net)
  {
    FirstContainingMeans(c.rules, net);
    forall a: nat, x | InNet(net, net.version, a) && x in c.rules && x.isExclusion
      ensures !Matches(x, Address(net.version, a))
    {
      if Matches(x, Address(net.version, a)) {
        OverlapsMeans(x.entry.net, net);
        assert Blocks(x, net);
      }
    }
  }

  /** A network is refused as excluded exactly when some address of it is in an exclusion entry. */
  lemma ExcludedNetworkExactly(c: Checker, net: Net, active: bool)
    ensures CheckNetwork(c, net, active).reason.Excluded? <==>
            exists x, a: nat :: x in c.rules && x.isExclusion && InNet(net, net.version, a) && Matches(x, Address(net.version, a))
  {
    if x :| x in c.rules && Blocks(x, net) {
      OverlapsMeans(x.entry.net, net);
      var a: nat :| InNet(x.entry.net, net.version, a) && InNet(net, net.version, a);
      assert Matches(x, Address(net.version, a));
    }
    if x, a: nat :| x in c.rules && x.isExclusion && InNet(net, net.version, a) && Matches(x, Address(net.version, a)) {
      OverlapsMeans(x.entry.net, net);
      assert Blocks(x, net);
    }
  }

  /** An allowed host is never excluded, and is covered by its most specific entry or by a parent that is allowed itself. */
  lemma {:induction false} AllowedHostIsAuthorized(c: Checker, host: Host, active: bool, parents: seq<Host>)
    requires CheckHost(c, host, active, parents).allowed
    ensures forall x :: x in c.rules && x.isExclusion ==> !Matches(x, host)
    ensures || (exists r :: MostSpecific(c.rules, host, false, r) && Permits(c, r, active))
            || (host.Address? && (active ==> c.derivedScanning) && exists p :: p in parents && CheckHost(c, p, active, []).allowed)
    ensures active && !c.allowNonPublic && host.Address? ==> c.isGlobal(Single(host))
  {
    FirstHit(c.rules, host, true);
    FirstHit(c.rules, host, false);
    if Hits(c.rules, host, false) == [] {
      DerivedFromAllowed(c, host, active, parents);
    }
  }

  lemma {:induction false} DerivedFromAllowed(c: Checker, host: Host, active: bool, parents: seq<Host>)
    requires host.Address? && CheckDerived(c, host, active, parents).allowed
    ensures (active ==> c.derivedScanning) && exists p :: p in parents && CheckHost(c, p, active, []).allowed
    ensures active && !c.allowNonPublic ==> c.isGlobal(Single(host))
    decreases |parents|
  {
    if CheckHost(c, parents[0], active, []).allowed {
      assert parents[0] in parents;
    } else {
      DerivedFromAllowed(c, host, active, parents[1..]);
    }
  }

  /** An address that may only be looked up, because it is not public. */
  predicate Unreachable(c: Checker, host: Host, active: bool) {
    host.Address? && active && !c.allowNonPublic && !c.isGlobal(Single(host))
  }

  /** The first of the parents that may itself be scanned. */
  predicate FirstAllowed(c: Checker, parents: seq<Host>, active: bool, n: nat) {
    && n < |parents| && CheckHost(c, parents[n], active, []).allowed
    && forall m :: 0 <= m < n ==> !CheckHost(c, parents[m], active, []).allowed
  }

  /**
   The whole decision on a host that no exclusion covers and some entry does: in scope, by the most specific entry,
   allowed unless that entry refuses, and then with its reason, or the address is not public.
   */
  lemma CoveredHostDecision(c: Checker, host: Host, active: bool, parents: seq<Host>)
    requires forall x :: x in c.rules && x.isExclusion ==> !Matches(x, host)
    requires exists x :: x in c.rules && !x.isExclusion && Matches(x, host)
    ensures var d := CheckHost(c, host, active, parents);
            && d.status.InScope? && d.rule.Some? && MostSpecific(c.rules, host, false, d.rule.value)
            && (if active && !d.rule.value.allowActive then !d.allowed && d.reason.NoActiveScanning?
                else if active && c.requireVerification && !d.rule.value.verified then !d.allowed && d.reason.NotVerified?
                else if Unreachable(c, host, active) then !d.allowed && d.reason.NotPublic?
                else d.allowed && d.reason.Within?)
  {
    FirstHit(c.rules, host, true);
    FirstHit(c.rules, host, false);
  }

  /** An excluded host is out of scope for that reason, and only an excluded one is. */
  lemma ExcludedHostDecision(c: Checker, host: Host, active: bool, parents: seq<Host>)
    ensures (exists x :: x in c.rules && x.isExclusion && Matches(x, host)) <==> CheckHost(c, host, active, parents).reason.Excluded?
    ensures CheckHost(c, host, active, parents).reason.Excluded? ==> CheckHost(c, host, active, parents) == Decision(false, Excluded, OutOfScope, None)
  {
    FirstHit(c.rules, host, true);
    if Hits(c.rules, host, true) == [] && Hits(c.rules, host, false) == [] && host.Address? {
      DerivedReasons(c, host, active, parents);
    }
  }

  lemma {:induction false} DerivedReasons(c: Checker, host: Host, active: bool, parents: seq<Host>)
    requires host.Address?
    ensures var d := CheckDerived(c, host, active, parents);
            d.reason.NotCovered? || d.reason.NoDerivedScanning? || d.reason.NotPublic? || d.reason.ResolvedFrom?
    decreases |parents|
  {
    if parents != [] {
      DerivedReasons(c, host, active, parents[1..]);
    }
  }

  lemma {:induction false} DerivedDecision(c: Checker, host: Host, active: bool, parents: seq<Host>, n: nat)
    requires host.Address? && FirstAllowed(c, parents, active, n)
    ensures var d, p := CheckDerived(c, host, active, parents), CheckHost(c, parents[n], active, []);
            && d.status.Derived? && d.rule == p.rule
            && (if active && !c.derivedScanning then !d.allowed && d.reason.NoDerivedScanning?
                else if Unreachable(c, host, active) then !d.allowed && d.reason.NotPublic?
                else d.allowed && d.reason == ResolvedFrom(parents[n]))
    decreases |parents|
  {
    if n > 0 {
      assert parents[1..][n - 1] == parents[n] && forall m :: 0 <= m < n - 1 ==> parents[1..][m] == parents[m + 1];
      assert FirstAllowed(c, parents[1..], active, n - 1);
      DerivedDecision(c, host, active, parents[1..], n - 1);
    }
  }

  lemma {:induction false} NoParentDecision(c: Checker, host: Host, active: bool, parents: seq<Host>)
    requires host.Address? && forall p :: p in parents ==> !CheckHost(c, p, active, []).allowed
    ensures CheckDerived(c, host, active, parents) == Decision(false, NotCovered, OutOfScope, None)
    decreases |parents|
  {
    if parents != [] {
      assert parents[0] in parents;
      assert forall p :: p in parents[1..] ==> p in parents;
      NoParentDecision(c, host, active, parents[1..]);
    }
  }

  /**
   The whole decision on a host that no rule covers: out of scope, unless it is an address that names led to; then the
   first of them that may itself be scanned decides, and it is derived from that one.
   */
  lemma UncoveredHostDecision(c: Checker, host: Host, active: bool, parents: seq<Host>, n: nat)
    requires forall x :: x in c.rules ==> !Matches(x, host)
    ensures host.Name? || (forall p :: p in parents ==> !CheckHost(c, p, active, []).allowed) ==>
              CheckHost(c, host, active, parents) == Decision(false, NotCovered, OutOfScope, None)
    ensures host.Address? && FirstAllowed(c, parents, active, n) ==>
              var d := CheckHost(c, host, active, parents);
              && d.status.Derived? && d.rule == CheckHost(c, parents[n], active, []).rule
              && (d.allowed <==> (active ==> c.derivedScanning) && !Unreachable(c, host, active))
              && (d.allowed ==> d.reason == ResolvedFrom(parents[n]))
              && (!d.allowed ==> if active && !c.derivedScanning then d.reason.NoDerivedScanning? else d.reason.NotPublic?)
  {
    FirstHit(c.rules, host, true);
    FirstHit(c.rules, host, false);
    if host.Address? {
      if forall p :: p in parents ==> !CheckHost(c, p, active, []).allowed {
        NoParentDecision(c, host, active, parents);
      }
      if FirstAllowed(c, parents, active, n) {
        DerivedDecision(c, host, active, parents, n);
      }
    }
  }

  /** An allowed name is the domain of its deciding entry or below it, and no excluded domain is it or above it. */
  lemma AllowedNameIsBelowEntry(c: Checker, text: string, active: bool, parents: seq<Host>)
    requires CheckHost(c, Name(text), active, parents).allowed
    ensures var d := CheckHost(c, Name(text), active, parents).rule;
            && d.Some? && d.value in c.rules && d.value.entry.Domain? && !d.value.isExclusion && Permits(c, d.value, active)
            && (text == d.value.entry.value || (d.value.includeSubdomains && Below(text, d.value.entry.value)))
    ensures forall x :: x in c.rules && x.isExclusion && x.entry.Domain? ==>
              text != x.entry.value && (x.includeSubdomains ==> !Below(text, x.entry.value))
  {
    FirstHit(c.rules, Name(text), true);
    FirstHit(c.rules, Name(text), false);
    NameMatches(Hits(c.rules, Name(text), false)[0], text);
    forall x | x in c.rules && x.isExclusion && x.entry.Domain?
      ensures text != x.entry.value && (x.includeSubdomains ==> !Below(text, x.entry.value))
    {
      NameMatches(x, text);
    }
  }

  /** With one entry that matches, what it says and how public the host is decide, and nothing else. */
  lemma OneEntryDecides(r: Rule, host: Host, active: bool, parents: seq<Host>, verification: bool, derived: bool, nonPublic: bool, isGlobal: Net -> bool)
    requires Matches(r, host)
    ensures CheckHost(Checker([r], verification, derived, nonPublic, isGlobal), host, active, parents).allowed <==>
            && !r.isExclusion
            && (active ==> r.allowActive && (r.verified || !verification) && (host.Name? || nonPublic || isGlobal(Single(host))))
  {
    FirstHit([r], host, true);
    FirstHit([r], host, false);
  }

  /** The same for a network inside the entry. */
  lemma OneEntryDecidesNetwork(r: Rule, net: Net, active: bool, verification: bool, derived: bool, nonPublic: bool, isGlobal: Net -> bool)
    requires r.entry.Network? && SubnetOf(net, r.entry.net)
    ensures CheckNetwork(Checker([r], verification, derived, nonPublic, isGlobal), net, active).allowed <==>
            !r.isExclusion && (active ==> r.allowActive && (r.verified || !verification) && (nonPublic || isGlobal(net)))
  {
    OverlapsMeans(r.entry.net, net);
    SubnetMeans(net, r.entry.net);
    assert InNet(net, net.version, First(net));
    assert r in [r];
  }

  /** A name that merely ends in the letters of a domain is not covered by it. */
  lemma LookalikeIsRefused(front: string, domain: string, active: bool, parents: seq<Host>, isGlobal: Net -> bool)
    requires front != "" && front[|front| - 1] != '.'
    ensures var entry := Rule(0, Domain(domain), true, false, true, true);
            CheckHost(Checker([entry], false, true, true, isGlobal), Name(front + domain), active, parents)
            == Decision(false, NotCovered, OutOfScope, None)
  {
    var entry, host := Rule(0, Domain(domain), true, false, true, true), Name(front + domain);
    var text := front + domain;
    assert text[|front|..] == domain && |text| > |domain|;
    var dotted := "." + domain;
    assert |text| - |dotted| == |front| - 1 && text[|front| - 1..][0] != dotted[0];
    FirstHit([entry], host, true);
    FirstHit([entry], host, false);
  }

  lemma NotExample(active: bool, isGlobal: Net -> bool)
    ensures var entry := Rule(0, Domain("example.com"), true, false, true, true);
            !CheckHost(Checker([entry], false, true, true, isGlobal), Name("notexample.com"), active, []).allowed
  {
    assert "not" + "example.com" == "notexample.com";
    LookalikeIsRefused("not", "example.com", active, [], isGlobal);
  }

  /** Of two entries that match the same host the more specific one is inside the other. */
  lemma MoreSpecificIsInside(r: Rule, s: Rule, host: Host)
    requires Matches(r, host) && Matches(s, host) && Specificity(s) <= Specificity(r)
    requires host.Address? ==> r.entry.net.prefix <= Width(host.version)
    ensures host.Name? ==> r.entry.value == s.entry.value || Below(r.entry.value, s.entry.value)
    ensures host.Address? ==> SubnetOf(r.entry.net, s.entry.net)
  {
    match host
    case Name(text) => TailsNest(r, s, text);
    case Address(v, a) => BlocksNest(r.entry.net, s.entry.net, a);
  }

  lemma TailsNest(r: Rule, s: Rule, text: string)
    requires Matches(r, Name(text)) && Matches(s, Name(text)) && |s.entry.value| <= |r.entry.value|
    ensures r.entry.value == s.entry.value || Below(r.entry.value, s.entry.value)
  {
    TailOf(r, text);
    TailOf(s, text);
    if |s.entry.value| < |r.entry.value| {
      var dotted := "." + s.entry.value;
      assert text[|text| - |dotted|..] == dotted;
      assert r.entry.value[|r.entry.value| - |dotted|..] == text[|text| - |dotted|..];
      EndsWithDotted(r.entry.value, s.entry.value);
    }
  }

  /** Of two blocks that share an address the one with the longer prefix is inside the other. */
  lemma BlocksNest(m: Net, n: Net, a: nat)
    requires InNet(m, m.version, a) && InNet(n, m.version, a) && n.prefix <= m.prefix <= Width(m.version)
    ensures SubnetOf(m, n)
  {
    var w := Width(m.version);
    PowersMultiply(w - m.prefix, m.prefix - n.prefix);
    assert (w - m.prefix) + (m.prefix - n.prefix) == w - n.prefix;
    assert Power2(0) == 1;
    NestedBlocks(m.block, n.block, Size(m), Power2(m.prefix - n.prefix), a);
  }

  lemma NestedBlocks(b: nat, c: nat, size: nat, ratio: nat, a: nat)
    requires size >= 1 && ratio >= 1
    requires b * size <= a <= b * size + size - 1 && c * (size * ratio) <= a <= c * (size * ratio) + size * ratio - 1
    ensures c * (size * ratio) <= b * size && b * size + size - 1 <= c * (size * ratio) + size * ratio - 1
  {
    var first := c * ratio;
    assert c * (size * ratio) == first * size;
    assert first * size + size * ratio == (first + ratio) * size;
    Grows(first, b + 1, size);
    Grows(b + 1, first, size);
    Grows(first + ratio, b, size);
    Grows(b, first + ratio, size);
    Grows(first, b, size);
    Grows(b + 1, first + ratio, size);
    assert (b + 1) * size == b * size + size;
  }

  lemma Grows(x: nat, y: nat, size: nat)
    ensures x <= y ==> x * size <= y * size
  {
    if x <= y {
      assert (y - x) * size >= 0;
      assert y * size == x * size + (y - x) * size;
    }
  }

  // ------------------------------------------------------- order of the rules

  predicate Doubles(r: Rule, s: Rule) {
    r.isExclusion == s.isExclusion && r.entry == s.entry
  }

  /** No two rules that match the host, with the same exclusion flag, denote the same domain or network. */
  predicate NoDoubles(rules: seq<Rule>, host: Host) {
    forall m, n :: 0 <= m < n < |rules| && Matches(rules[m], host) ==> !Doubles(rules[m], rules[n])
  }

  /** What the table of entries guarantees: each domain once with each exclusion flag. An address can be an entry and a network of its own too. */
  predicate DomainsOnce(rules: seq<Rule>) {
    forall m, n :: 0 <= m < n < |rules| && rules[m].entry.Domain? ==> !Doubles(rules[m], rules[n])
  }

  /** Equally specific entries that match the same host are the same entry. */
  lemma OneEntryPerLength(r: Rule, s: Rule, host: Host)
    requires Matches(r, host) && Matches(s, host) && Specificity(r) == Specificity(s)
    ensures r.entry == s.entry
  {
    match host
    case Name(text) =>
      TailOf(r, text);
      TailOf(s, text);
    case Address(v, a) =>
      SameBlock(r.entry.net, s.entry.net, v, a);
  }

  lemma TailOf(r: Rule, text: string)
    requires Matches(r, Name(text))
    ensures |r.entry.value| <= |text| && r.entry.value == text[|text| - |r.entry.value|..]
  {
    if text != r.entry.value {
      var dotted := "." + r.entry.value;
      assert text[|text| - |dotted|..] == dotted;
      assert dotted[1..] == r.entry.value;
      assert text[|text| - |dotted|..][1..] == text[|text| - |r.entry.value|..];
    }
  }

  ghost predicate SameRules(a: seq<Rule>, b: seq<Rule>) {
    forall x :: x in a <==> x in b
  }

  /** The same rules in another order have hits for the same hosts, and the same most specific ones. */
  lemma SameHits(a: seq<Rule>, b: seq<Rule>, host: Host, exclusion: bool)
    requires SameRules(a, b)
    ensures Hits(a, host, exclusion) == [] <==> Hits(b, host, exclusion) == []
    ensures Hits(b, host, exclusion) != [] ==> MostSpecific(a, host, exclusion, Hits(b, host, exclusion)[0])
  {
    FirstHit(a, host, exclusion);
    FirstHit(b, host, exclusion);
  }

  lemma OneMostSpecific(rules: seq<Rule>, host: Host, exclusion: bool, r: Rule, s: Rule)
    requires NoDoubles(rules, host) && MostSpecific(rules, host, exclusion, r) && MostSpecific(rules, host, exclusion, s)
    ensures r == s
  {
    OneEntryPerLength(r, s, host);
    var m :| 0 <= m < |rules| && rules[m] == r;
    var n :| 0 <= n < |rules| && rules[n] == s;
    assert m < n ==> !Doubles(rules[m], rules[n]);
    assert n < m ==> !Doubles(rules[n], rules[m]);
  }

  lemma SameFirstHit(a: seq<Rule>, b: seq<Rule>, host: Host, exclusion: bool)
    requires NoDoubles(a, host) && SameRules(a, b)
    ensures Hits(a, host, exclusion) == [] <==> Hits(b, host, exclusion) == []
    ensures Hits(a, host, exclusion) != [] ==> Hits(a, host, exclusion)[0] == Hits(b, host, exclusion)[0]
  {
    SameHits(a, b, host, exclusion);
    if Hits(a, host, exclusion) != [] {
      FirstHit(a, host, exclusion);
      OneMostSpecific(a, host, exclusion, Hits(a, host, exclusion)[0], Hits(b, host, exclusion)[0]);
    }
  }

  /** Without doubles for it or its parents, a host gets the same decision whatever the order of the rules. */
  lemma {:induction false} HostDecisionIgnoresOrder(c: Checker, rules: seq<Rule>, host: Host, active: bool, parents: seq<Host>)
    requires NoDoubles(c.rules, host) && (forall p :: p in parents ==> NoDoubles(c.rules, p)) && multiset(rules) == multiset(c.rules)
    ensures CheckHost(c.(rules := rules), host, active, parents) == CheckHost(c, host, active, parents)
    decreases |parents|, 1
  {
    SameMembers(c.rules, rules);
    SameFirstHit(c.rules, rules, host, true);
    SameFirstHit(c.rules, rules, host, false);
    if host.Address? {
      DerivedDecisionIgnoresOrder(c, rules, host, active, parents);
    }
  }

  lemma {:induction false} DerivedDecisionIgnoresOrder(c: Checker, rules: seq<Rule>, host: Host, active: bool, parents: seq<Host>)
    requires (forall p :: p in parents ==> NoDoubles(c.rules, p)) && multiset(rules) == multiset(c.rules) && host.Address?
    ensures CheckDerived(c.(rules := rules), host, active, parents) == CheckDerived(c, host, active, parents)
    decreases |parents|, 0
  {
    if parents != [] {
      assert NoDoubles(c.rules, parents[0]);
      HostDecisionIgnoresOrder(c, rules, parents[0], active, []);
      DerivedDecisionIgnoresOrder(c, rules, host, active, parents[1..]);
    }
  }

  lemma SameMembers(a: seq<Rule>, b: seq<Rule>)
    requires multiset(a) == multiset(b)
    ensures SameRules(a, b)
  {
    forall x
      ensures x in a <==> x in b
    {
      assert x in a <==> x in multiset(a);
      assert x in b <==> x in multiset(b);
    }
  }

  /** Doubles matter: an address that is an entry itself and a network of its own is decided by the first one listed. */
  lemma DoublesDependOnOrder(a: nat, isGlobal: Net -> bool)
    ensures var open, shut := Rule(0, Network(Net(V4, 32, a)), true, false, true, true), Rule(1, Network(Net(V4, 32, a)), true, false, false, true);
            && DomainsOnce([open, shut])
            && CheckHost(Checker([open, shut], false, true, true, isGlobal), Address(V4, a), true, []).allowed
            && !CheckHost(Checker([shut, open], false, true, true, isGlobal), Address(V4, a), true, []).allowed
  {
    var open, shut := Rule(0, Network(Net(V4, 32, a)), true, false, true, true), Rule(1, Network(Net(V4, 32, a)), true, false, false, true);
    TwoHits(open, shut, Address(V4, a));
    TwoHits(shut, open, Address(V4, a));
  }

  lemma TwoHits(r: Rule, s: Rule, host: Host)
    requires Matches(r, host) && Matches(s, host) && !r.isExclusion && !s.isExclusion && Specificity(r) == Specificity(s)
    ensures Hits([r, s], host, false) == [r, s] && Hits([r, s], host, true) == []
  {
    MatchingOne(r, host);
    MatchingAppend([r], s, host, false);
    assert [r] + [s] == [r, s];
    BySpecificityTwo(r, s);
    FirstHit([r, s], host, true);
  }

  lemma MatchingAppend(rules: seq<Rule>, x: Rule, host: Host, exclusion: bool)
    ensures Matching(rules + [x], host, exclusion) ==
            Matching(rules, host, exclusion) + if x.isExclusion == exclusion && Matches(x, host) then [x] else []
  {
    assert (rules + [x])[..|rules|] == rules;
  }

  lemma MatchingOne(r: Rule, host: Host)
    requires Matches(r, host) && !r.isExclusion
    ensures Matching([r], host, false) == [r]
  {
    MatchingAppend([], r, host, false);
    assert [] + [r] == [r];
  }

  lemma BySpecificityTwo(r: Rule, s: Rule)
    requires Specificity(r) == Specificity(s)
    ensures BySpecificity([r, s]) == [r, s]
  {
    var rs := [r, s];
    assert rs[1..] == [s];
    assert [s][1..] == [];
    assert BySpecificity([s]) == Place(s, []) == [s];
    assert Place(r, [s]) == [r] + [s];
  }

  /** The network may be scanned at all: passively, or where others than public ones may be, or because it is public. */
  predicate NetworkOk(c: Checker, net: Net, active: bool) {
    active && !c.allowNonPublic ==> c.isGlobal(net)
  }

  predicate Excludes(rules: seq<Rule>, host: Host) {
    exists x :: x in rules && x.isExclusion && Matches(x, host)
  }

  predicate Includes(rules: seq<Rule>, host: Host) {
    exists x :: x in rules && !x.isExclusion && Matches(x, host)
  }

  /**
   Without doubles for it a host may be scanned exactly when no exclusion matches it and its most specific entry
   permits it or, for an address in no entry, when derived scanning is allowed and some parent may be scanned;
   and an address, if scanned actively, has to be public.
   */
  lemma HostAllowedExactly(c: Checker, host: Host, active: bool, parents: seq<Host>)
    requires NoDoubles(c.rules, host)
    ensures CheckHost(c, host, active, parents).allowed <==>
            && !Excludes(c.rules, host)
            && (host.Address? ==> NetworkOk(c, Single(host), active))
            && if Includes(c.rules, host) then exists r :: MostSpecific(c.rules, host, false, r) && Permits(c, r, active)
               else host.Address? && (active ==> c.derivedScanning) && exists p :: p in parents && CheckHost(c, p, active, []).allowed
  {
    FirstHit(c.rules, host, true);
    FirstHit(c.rules, host, false);
    if Includes(c.rules, host) {
      var first := Hits(c.rules, host, false)[0];
      forall r | MostSpecific(c.rules, host, false, r)
        ensures r == first
      {
        OneMostSpecific(c.rules, host, false, r, first);
      }
    } else if host.Address? {
      DerivedAllowedExactly(c, host, active, parents);
    }
  }

  lemma {:induction false} DerivedAllowedExactly(c: Checker, host: Host, active: bool, parents: seq<Host>)
    requires host.Address?
    ensures CheckDerived(c, host, active, parents).allowed <==>
            NetworkOk(c, Single(host), active) && (active ==> c.derivedScanning) && exists p :: p in parents && CheckHost(c, p, active, []).allowed
    decreases |parents|
  {
    if parents != [] {
      assert parents[0] in parents;
      if !CheckHost(c, parents[0], active, []).allowed {
        DerivedAllowedExactly(c, host, active, parents[1..]);
        assert parents == [parents[0]] + parents[1..];
      }
    }
  }

  // ------------------------------------------------ order of the rules, hosts

  lemma {:induction false} MatchingPrepend(r: Rule, rules: seq<Rule>, host: Host)
    requires Matches(r, host) && !r.isExclusion
    ensures Matching([r] + rules, host, false) == [r] + Matching(rules, host, false)
  {
    if rules == [] {
      MatchingOne(r, host);
      assert [r] + rules == [r];
    } else {
      var init, last := rules[..|rules| - 1], rules[|rules| - 1];
      assert [r] + rules == ([r] + init) + [last] && rules == init + [last];
      MatchingPrepend(r, init, host);
      MatchingAppend([r] + init, last, host, false);
      MatchingAppend(init, last, host, false);
    }
  }

  /** A most specific matching rule that is listed first is the first hit. */
  lemma MostSpecificFirst(r: Rule, rest: seq<Rule>, host: Host)
    requires MostSpecific([r] + rest, host, false, r)
    ensures Hits([r] + rest, host, false) != [] && Hits([r] + rest, host, false)[0] == r
  {
    var m := Matching(rest, host, false);
    MatchingIs(rest, host, false);
    MatchingPrepend(r, rest, host);
    assert ([r] + m)[1..] == m;
    if m != [] {
      BySpecificityHead(m);
      assert BySpecificity(m)[0] in [r] + rest;
    }
  }

  /** May be scanned if its entry permits: a name always, an address if it is public enough. */
  predicate HostOk(c: Checker, host: Host, active: bool) {
    host.Address? ==> NetworkOk(c, Single(host), active)
  }

  /** The first hit decides. */
  lemma VerdictOfFirstHit(c: Checker, host: Host, active: bool, parents: seq<Host>)
    requires Hits(c.rules, host, true) == [] && Hits(c.rules, host, false) != []
    ensures CheckHost(c, host, active, parents).allowed <==> Permits(c, Hits(c.rules, host, false)[0], active) && HostOk(c, host, active)
  {
  }

  lemma Rearranged(rules: seq<Rule>, r: Rule) returns (rest: seq<Rule>)
    requires r in rules
    ensures multiset([r] + rest) == multiset(rules)
  {
    var n :| 0 <= n < |rules| && rules[n] == r;
    rest := rules[..n] + rules[n + 1..];
    assert rules == rules[..n] + [r] + rules[n + 1..];
  }

  /** With a most specific rule put first, that rule alone decides. */
  lemma MostSpecificDecides(c: Checker, host: Host, active: bool, parents: seq<Host>, r: Rule) returns (rules: seq<Rule>)
    requires MostSpecific(c.rules, host, false, r) && !Excludes(c.rules, host)
    ensures multiset(rules) == multiset(c.rules)
    ensures CheckHost(c.(rules := rules), host, active, parents).allowed <==> Permits(c, r, active) && HostOk(c, host, active)
  {
    var rest := Rearranged(c.rules, r);
    rules := [r] + rest;
    SameMembers(rules, c.rules);
    FirstHit(rules, host, true);
    MostSpecificFirst(r, rest, host);
    VerdictOfFirstHit(c.(rules := rules), host, active, parents);
  }

  ghost predicate HostUnanimous(c: Checker, host: Host, active: bool) {
    forall r, s :: MostSpecific(c.rules, host, false, r) && MostSpecific(c.rules, host, false, s) ==> Permits(c, r, active) == Permits(c, s, active)
  }

  lemma SamePermission(c: Checker, rules: seq<Rule>, host: Host, active: bool)
    requires SameRules(c.rules, rules) && Hits(c.rules, host, false) != [] && HostUnanimous(c, host, active)
    ensures Hits(rules, host, false) != []
    ensures Permits(c, Hits(rules, host, false)[0], active) == Permits(c, Hits(c.rules, host, false)[0], active)
  {
    FirstHit(c.rules, host, false);
    SameHits(c.rules, rules, host, false);
  }

  lemma SameHostVerdict(c: Checker, rules: seq<Rule>, host: Host, active: bool, parents: seq<Host>)
    requires SameRules(c.rules, rules) && Hits(c.rules, host, true) == [] && Hits(c.rules, host, false) != []
    requires HostOk(c, host, active) ==> HostUnanimous(c, host, active)
    ensures CheckHost(c.(rules := rules), host, active, parents).allowed == CheckHost(c, host, active, parents).allowed
  {
    SameHits(c.rules, rules, host, true);
    SameHits(c.rules, rules, host, false);
    VerdictOfFirstHit(c, host, active, parents);
    VerdictOfFirstHit(c.(rules := rules), host, active, parents);
    if HostOk(c, host, active) {
      SamePermission(c, rules, host, active);
    }
  }

  /**
   For a host in some entry and not excluded, whether it is allowed is the same for every order of the rules
   exactly when its most specific entries permit alike, or it is an address that may not be scanned anyway.
   */
  lemma HostDecisionIgnoresOrderExactly(c: Checker, host: Host, active: bool, parents: seq<Host>)
    requires !Excludes(c.rules, host) && Includes(c.rules, host)
    ensures (forall rules :: multiset(rules) == multiset(c.rules) ==>
               CheckHost(c.(rules := rules), host, active, parents).allowed == CheckHost(c, host, active, parents).allowed)
            <==> (HostOk(c, host, active) ==> HostUnanimous(c, host, active))
  {
    if HostOk(c, host, active) && !HostUnanimous(c, host, active) {
      var r, s :| MostSpecific(c.rules, host, false, r) && MostSpecific(c.rules, host, false, s) && Permits(c, r, active) != Permits(c, s, active);
      var one := MostSpecificDecides(c, host, active, parents, r);
      var two := MostSpecificDecides(c, host, active, parents, s);
    } else {
      FirstHit(c.rules, host, true);
      FirstHit(c.rules, host, false);
      forall rules | multiset(rules) == multiset(c.rules)
        ensures CheckHost(c.(rules := rules), host, active, parents).allowed == CheckHost(c, host, active, parents).allowed
      {
        SameMembers(c.rules, rules);
        SameHostVerdict(c, rules, host, active, parents);
      }
    }
  }

  /**
   Every other host, on entries the table can hold, gets one decision for every order: one that is excluded, a
   name, and an address in no entry that is reached through names.
   */
  lemma OtherHostsIgnoreOrder(c: Checker, rules: seq<Rule>, host: Host, active: bool, parents: seq<Host>)
    requires DomainsOnce(c.rules) && multiset(rules) == multiset(c.rules) && forall p :: p in parents ==> p.Name?
    requires Excludes(c.rules, host) || host.Name? || !Includes(c.rules, host)
    ensures CheckHost(c.(rules := rules), host, active, parents) == CheckHost(c, host, active, parents)
  {
    forall p | p in parents
      ensures NoDoubles(c.rules, p)
    {
    }
    if Excludes(c.rules, host) {
      SameMembers(c.rules, rules);
      FirstHit(c.rules, host, true);
      FirstHit(rules, host, true);
    } else if host.Name? {
      HostDecisionIgnoresOrder(c, rules, host, active, parents);
    } else {
      SameMembers(c.rules, rules);
      assert NoDoubles(c.rules, host);
      HostDecisionIgnoresOrder(c, rules, host, active, parents);
    }
  }

  // --------------------------------------------- order of the rules, networks

  /** A network with no excluded address, inside some entry and permitted by all it is inside of, may be scanned. */
  lemma PermittedNetworkIsAllowed(c: Checker, net: Net, active: bool)
    requires forall x, a: nat :: x in c.rules && x.isExclusion && InNet(net, net.version, a) ==> !Matches(x, Address(net.version, a))
    requires exists r :: r in c.rules && Contains(r, net)
    requires forall r :: r in c.rules && Contains(r, net) ==> Permits(c, r, active)
    requires NetworkOk(c, net, active)
    ensures CheckNetwork(c, net, active).allowed
  {
    ExcludedNetworkExactly(c, net, active);
    FirstContainingMeans(c.rules, net);
  }

  /** With a containing rule put first, that rule alone decides. */
  lemma ContainingRuleFirst(c: Checker, net: Net, active: bool, r: Rule, rest: seq<Rule>)
    requires Contains(r, net) && !exists x :: x in [r] + rest && Blocks(x, net)
    ensures CheckNetwork(c.(rules := [r] + rest), net, active).allowed <==> Permits(c, r, active) && NetworkOk(c, net, active)
  {
  }

  /**
   For a network that is not excluded, whether it is allowed is the same for every order of the rules
   exactly when the entries that contain it all permit it or all do not, or it may not be scanned anyway.
   */
  lemma NetworkDecisionIgnoresOrderExactly(c: Checker, net: Net, active: bool)
    requires forall x :: x in c.rules ==> !Blocks(x, net)
    ensures (forall rules :: multiset(rules) == multiset(c.rules) ==>
               CheckNetwork(c.(rules := rules), net, active).allowed == CheckNetwork(c, net, active).allowed)
            <==> (NetworkOk(c, net, active) ==> Unanimous(c, net, active))
  {
    if NetworkOk(c, net, active) && !Unanimous(c, net, active) {
      var r, s :| r in c.rules && s in c.rules && Contains(r, net) && Contains(s, net) && Permits(c, r, active) != Permits(c, s, active);
      var one := Foremost(c, net, active, r);
      var two := Foremost(c, net, active, s);
    } else {
      forall rules | multiset(rules) == multiset(c.rules)
        ensures CheckNetwork(c.(rules := rules), net, active).allowed == CheckNetwork(c, net, active).allowed
      {
        SameVerdict(c, rules, net, active);
      }
    }
  }

  lemma SameVerdict(c: Checker, rules: seq<Rule>, net: Net, active: bool)
    requires multiset(rules) == multiset(c.rules) && forall x :: x in c.rules ==> !Blocks(x, net)
    requires NetworkOk(c, net, active) ==> Unanimous(c, net, active)
    ensures CheckNetwork(c.(rules := rules), net, active).allowed == CheckNetwork(c, net, active).allowed
  {
    SameMembers(c.rules, rules);
    FirstContainingMeans(c.rules, net);
    FirstContainingMeans(rules, net);
  }

  lemma {:induction false} PowerGrows(m: nat, n: nat)
    requires m <= n
    ensures Power2(m) <= Power2(n)
  {
    if m < n {
      PowerGrows(m, n - 1);
    }
  }

  /** The order can matter: inside a network that permits and a smaller one that does not, the first one listed decides. */
  lemma NetworkOrderMatters(wide: nat, narrow: nat, isGlobal: Net -> bool)
    requires wide <= narrow <= 32
    ensures var permits, forbids := Rule(0, Network(Net(V4, wide, 0)), true, false, true, true), Rule(1, Network(Net(V4, narrow, 0)), true, false, false, true);
            var target := Net(V4, narrow, 0);
            && CheckNetwork(Checker([permits, forbids], false, true, true, isGlobal), target, true).allowed
            && !CheckNetwork(Checker([forbids, permits], false, true, true, isGlobal), target, true).allowed
  {
    PowerGrows(32 - narrow, 32 - wide);
    assert Power2(0) == 1;
    var permits, forbids := Rule(0, Network(Net(V4, wide, 0)), true, false, true, true), Rule(1, Network(Net(V4, narrow, 0)), true, false, false, true);
    assert Contains(permits, Net(V4, narrow, 0)) && Contains(forbids, Net(V4, narrow, 0));
    assert !Blocks(permits, Net(V4, narrow, 0)) && !Blocks(forbids, Net(V4, narrow, 0));
    FirstListedDecides([permits, forbids], Net(V4, narrow, 0), 0);
    FirstListedDecides([forbids, permits], Net(V4, narrow, 0), 0);
  }

  ghost predicate Unanimous(c: Checker, net: Net, active: bool) {
    forall r, s :: r in c.rules && s in c.rules && Contains(r, net) && Contains(s, net) ==> Permits(c, r, active) == Permits(c, s, active)
  }

  lemma Foremost(c: Checker, net: Net, active: bool, r: Rule) returns (rules: seq<Rule>)
    requires r in c.rules && Contains(r, net) && NetworkOk(c, net, active) && forall x :: x in c.rules ==> !Blocks(x, net)
    ensures multiset(rules) == multiset(c.rules) && CheckNetwork(c.(rules := rules), net, active).allowed == Permits(c, r, active)
  {
    var rest := Rearranged(c.rules, r);
    rules := [r] + rest;
    SameMembers(rules, c.rules);
    ContainingRuleFirst(c, net, active, r, rest);
  }

  // -------------------------------------------------------------- collecting

  /** The rules that match a host, gathered one by one and then ordered. */
  method CollectHits(rules: seq<Rule>, host: Host, exclusion: bool) returns (hits: seq<Rule>)
    ensures hits == Hits(rules, host, exclusion)
    ensures hits != [] ==> MostSpecific(rules, host, exclusion, hits[0])
    ensures hits == [] ==> forall x :: x in rules && x.isExclusion == exclusion ==> !Matches(x, host)
  {
    var out, n := [], 0;
    while n < |rules|
      invariant 0 <= n <= |rules|
      invariant out == Matching(rules[..n], host, exclusion)
    {
      assert rules[..n + 1][..n] == rules[..n];
      if rules[n].isExclusion == exclusion && Matches(rules[n], host) {
        out := out + [rules[n]];
      }
      n := n + 1;
    }
    assert rules[..n] == rules;
    FirstHit(rules, host, exclusion);
    hits := BySpecificity(out);
  }
}
