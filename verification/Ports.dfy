/**
 Explicit port sets: parsing, merging, membership, counting and the printed normal form
 (workers/asm_sensors/ports.py).
 */
module Ports {
  import opened Prelude
  import opened Decimals

  const MAX_PORT := 65535

  datatype Range = Range(lo: nat, hi: nat)

  // ------------------------------------------------------------------- text

  function WithoutSpaces(s: string): string {
    if s == "" then "" else if s[0] == ' ' then WithoutSpaces(s[1..]) else [s[0]] + WithoutSpaces(s[1..])
  }

  /** The pattern's end also matches just before one final line break. */
  function Body(s: string): string {
    if s != "" && s[|s| - 1] == '\n' then s[..|s| - 1] else s
  }

  function Split(s: string, c: char): (r: seq<string>)
    ensures |r| >= 1
  {
    if s == "" then [""]
    else if s[0] == c then [""] + Split(s[1..], c)
    else
      var rest := Split(s[1..], c);
      [[s[0]] + rest[0]] + rest[1..]
  }

  predicate IsNumber(t: string) {
    1 <= |t| <= 5 && Digits(t)
  }

  /** One part of a specification: a port, or two joined by a dash. */
  function ParsePart(p: string): Option<Range> {
    var ends := Split(p, '-');
    if |ends| == 1 && IsNumber(ends[0]) then Some(Range(Value(ends[0]), Value(ends[0])))
    else if |ends| == 2 && IsNumber(ends[0]) && IsNumber(ends[1]) then Some(Range(Value(ends[0]), Value(ends[1])))
    else None
  }

  predicate ValidRange(r: Range) {
    1 <= r.lo <= r.hi <= MAX_PORT
  }

  function ParseParts(parts: seq<string>): (r: Option<seq<Range>>)
    ensures r.Some? <==> forall n :: 0 <= n < |parts| ==> ParsePart(parts[n]).Some? && ValidRange(ParsePart(parts[n]).value)
    ensures r.Some? ==> |r.value| == |parts| && forall n :: 0 <= n < |parts| ==> r.value[n] == ParsePart(parts[n]).value
  {
    if parts == [] then Some([])
    else
      var head, tail := ParsePart(parts[0]), ParseParts(parts[1..]);
      if head.Some? && ValidRange(head.value) && tail.Some? then Some([head.value] + tail.value) else None
  }

  function Parse(spec: string): Option<seq<Range>> {
    ParseParts(Split(Body(WithoutSpaces(spec)), ','))
  }

  // ------------------------------------------------------------ what is meant

  predicate In(r: Range, port: int) {
    r.lo <= port <= r.hi
  }

  predicate Covers(rs: seq<Range>, port: int) {
    exists n :: 0 <= n < |rs| && In(rs[n], port)
  }

  function PortSet(rs: seq<Range>): set<int> {
    set port | 0 <= port <= MAX_PORT && Covers(rs, port)
  }

  predicate AllValid(rs: seq<Range>) {
    forall n :: 0 <= n < |rs| ==> ValidRange(rs[n])
  }

  /** In order, not overlapping and not even touching. */
  predicate Normal(rs: seq<Range>) {
    && AllValid(rs)
    && forall m, n :: 0 <= m < n < |rs| ==> rs[m].hi + 1 < rs[n].lo
  }

  // ----------------------------------------------------------------- sorting

  predicate Before(a: Range, b: Range) {
    a.lo < b.lo || (a.lo == b.lo && a.hi <= b.hi)
  }

  predicate Sorted(rs: seq<Range>) {
    forall m, n :: 0 <= m < n < |rs| ==> Before(rs[m], rs[n])
  }

  function Insert(r: Range, rs: seq<Range>): seq<Range> {
    if rs == [] || Before(r, rs[0]) then [r] + rs else [rs[0]] + Insert(r, rs[1..])
  }

  function Sort(rs: seq<Range>): seq<Range> {
    if rs == [] then [] else Insert(rs[0], Sort(rs[1..]))
  }

  lemma {:induction false} InsertMembers(r: Range, rs: seq<Range>, x: Range)
    ensures x in Insert(r, rs) <==> x == r || x in rs
    ensures |Insert(r, rs)| == |rs| + 1
  {
    if rs != [] && !Before(r, rs[0]) {
      InsertMembers(r, rs[1..], x);
      assert x in rs <==> x == rs[0] || x in rs[1..];
    }
  }

  lemma {:induction false} InsertSorts(r: Range, rs: seq<Range>)
    requires Sorted(rs)
    ensures Sorted(Insert(r, rs))
  {
    if rs != [] && !Before(r, rs[0]) {
      InsertSorts(r, rs[1..]);
      var tail := Insert(r, rs[1..]);
      forall n | 0 <= n < |tail|
        ensures Before(rs[0], tail[n])
      {
        InsertMembers(r, rs[1..], tail[n]);
        assert tail[n] in tail;
      }
    }
  }

  lemma {:induction false} SortMembers(rs: seq<Range>, x: Range)
    ensures x in Sort(rs) <==> x in rs
    ensures |Sort(rs)| == |rs|
  {
    if rs != [] {
      SortMembers(rs[1..], x);
      InsertMembers(rs[0], Sort(rs[1..]), x);
      assert x in rs <==> x == rs[0] || x in rs[1..];
    }
  }

  lemma {:induction false} SortSorts(rs: seq<Range>)
    ensures Sorted(Sort(rs))
  {
    if rs != [] {
      SortSorts(rs[1..]);
      InsertSorts(rs[0], Sort(rs[1..]));
    }
  }

  lemma SortMeans(rs: seq<Range>)
    ensures Sorted(Sort(rs)) && |Sort(rs)| == |rs|
    ensures AllValid(rs) ==> AllValid(Sort(rs))
    ensures forall port :: Covers(Sort(rs), port) <==> Covers(rs, port)
  {
    SortSorts(rs);
    forall x {
      SortMembers(rs, x);
    }
    assert forall n :: 0 <= n < |rs| ==> rs[n] in Sort(rs);
    assert forall n :: 0 <= n < |Sort(rs)| ==> Sort(rs)[n] in rs;
  }

  // ------------------------------------------------------------- compiling

  /** Merge the next range, in order, into what is merged so far. */
  function MergeNext(merged: seq<Range>, r: Range): (m: seq<Range>)
    ensures |m| >= 1
  {
    if merged != [] && r.lo <= merged[|merged| - 1].hi + 1 then
      var last := merged[|merged| - 1];
      merged[|merged| - 1 := Range(last.lo, Max(last.hi, r.hi))]
    else merged + [r]
  }

  function MergeAll(rs: seq<Range>): seq<Range> {
    if rs == [] then [] else MergeNext(MergeAll(rs[..|rs| - 1]), rs[|rs| - 1])
  }

  function Compiled(rs: seq<Range>): seq<Range> {
    MergeAll(Sort(rs))
  }

  /** Merging keeps the normal form as long as ranges come in order, and means the union. */
  lemma MergeNextMeans(merged: seq<Range>, r: Range)
    requires Normal(merged) && ValidRange(r) && (merged != [] ==> merged[|merged| - 1].lo <= r.lo)
    ensures Normal(MergeNext(merged, r)) && MergeNext(merged, r)[|MergeNext(merged, r)| - 1].lo <= r.lo
    ensures forall port :: Covers(MergeNext(merged, r), port) <==> Covers(merged, port) || In(r, port)
  {
    var after := MergeNext(merged, r);
    forall port
      ensures Covers(after, port) <==> Covers(merged, port) || In(r, port)
    {
      if merged != [] && r.lo <= merged[|merged| - 1].hi + 1 {
        CoversInit(merged, port);
        CoversInit(after, port);
        assert after[..|merged| - 1] == merged[..|merged| - 1];
      } else {
        CoversInit(after, port);
        assert after[..|merged|] == merged;
      }
    }
  }

  lemma CoversInit(rs: seq<Range>, port: int)
    requires rs != []
    ensures Covers(rs, port) <==> Covers(rs[..|rs| - 1], port) || In(rs[|rs| - 1], port)
  {
    var init := rs[..|rs| - 1];
    if Covers(init, port) {
      var n :| 0 <= n < |init| && In(init[n], port);
      assert In(rs[n], port);
    }
    if Covers(rs, port) && !In(rs[|rs| - 1], port) {
      var n :| 0 <= n < |rs| && In(rs[n], port);
      assert In(init[n], port);
    }
  }

  lemma {:induction false} MergeAllMeans(rs: seq<Range>)
    requires Sorted(rs) && AllValid(rs)
    ensures Normal(MergeAll(rs)) && (rs == [] <==> MergeAll(rs) == [])
    ensures rs != [] ==> MergeAll(rs)[|MergeAll(rs)| - 1].lo <= rs[|rs| - 1].lo
    ensures forall port :: Covers(MergeAll(rs), port) <==> Covers(rs, port)
  {
    if rs != [] {
      var init, last := rs[..|rs| - 1], rs[|rs| - 1];
      MergeAllMeans(init);
      assert init != [] ==> Before(init[|init| - 1], last);
      MergeNextMeans(MergeAll(init), last);
      forall port {
        CoversInit(rs, port);
      }
    }
  }

  /** Compiling yields the normal form, and it covers exactly what the parts cover. */
  lemma CompiledMeans(rs: seq<Range>)
    requires AllValid(rs)
    ensures Normal(Compiled(rs))
    ensures forall port :: Covers(Compiled(rs), port) <==> Covers(rs, port)
  {
    SortMeans(rs);
    MergeAllMeans(Sort(rs));
  }

  ghost predicate SameCover(a: seq<Range>, b: seq<Range>) {
    forall port :: Covers(a, port) <==> Covers(b, port)
  }

  lemma StartsCovered(rs: seq<Range>)
    requires Normal(rs) && rs != []
    ensures Covers(rs, rs[0].lo)
  {
    assert In(rs[0], rs[0].lo);
  }

  lemma TailsAgree(a: seq<Range>, b: seq<Range>)
    requires Normal(a) && Normal(b) && a != [] && b != [] && SameCover(a, b)
    ensures a[0] == b[0] && SameCover(a[1..], b[1..])
  {
    FirstAgrees(a, b);
    FirstAgrees(b, a);
    forall port
      ensures Covers(a[1..], port) <==> Covers(b[1..], port)
    {
      CoversTail(a, port);
      CoversTail(b, port);
    }
  }

  /** Two normal forms that cover the same ports are the same. */
  lemma {:induction false} NormalFormIsUnique(a: seq<Range>, b: seq<Range>)
    requires Normal(a) && Normal(b) && SameCover(a, b)
    ensures a == b
    decreases |a|
  {
    if a != [] {
      StartsCovered(a);
    }
    if b != [] {
      StartsCovered(b);
    }
    if a != [] && b != [] {
      TailsAgree(a, b);
      NormalFormIsUnique(a[1..], b[1..]);
      assert a == [a[0]] + a[1..] && b == [b[0]] + b[1..];
    }
  }

  lemma CoversTail(rs: seq<Range>, port: int)
    requires Normal(rs) && rs != []
    ensures Covers(rs[1..], port) <==> Covers(rs, port) && port > rs[0].hi
  {
    if Covers(rs[1..], port) {
      var n :| 0 <= n < |rs| - 1 && In(rs[1..][n], port);
      assert In(rs[n + 1], port);
    }
    if Covers(rs, port) && port > rs[0].hi {
      var n :| 0 <= n < |rs| && In(rs[n], port);
      assert In(rs[1..][n - 1], port);
    }
  }

  lemma GapAfterFirst(rs: seq<Range>)
    requires Normal(rs) && rs != []
    ensures !Covers(rs, rs[0].hi + 1)
  {
  }

  lemma FirstAgrees(a: seq<Range>, b: seq<Range>)
    requires Normal(a) && Normal(b) && a != [] && b != [] && SameCover(a, b)
    ensures a[0].lo >= b[0].lo
    ensures a[0].lo == b[0].lo ==> a[0].hi <= b[0].hi
  {
    assert In(a[0], a[0].lo) && Covers(a, a[0].lo);
    var n :| 0 <= n < |b| && In(b[n], a[0].lo);
    GapAfterFirst(b);
    assert !Covers(a, b[0].hi + 1);
    assert !In(a[0], b[0].hi + 1);
  }

  // ---------------------------------------------------------------- counting

  function Count(rs: seq<Range>): int {
    if rs == [] then 0 else Count(rs[..|rs| - 1]) + rs[|rs| - 1].hi - rs[|rs| - 1].lo + 1
  }

  function PortsOf(r: Range): set<int> {
    set port | r.lo <= port <= r.hi && In(r, port)
  }

  lemma {:induction false} RangeSize(r: Range)
    requires r.lo <= r.hi
    ensures |PortsOf(r)| == r.hi - r.lo + 1
    decreases r.hi
  {
    if r.lo == r.hi {
      assert PortsOf(r) == {r.lo};
    } else {
      RangeSize(Range(r.lo, r.hi - 1));
      assert PortsOf(r) == PortsOf(Range(r.lo, r.hi - 1)) + {r.hi};
    }
  }

  /** Adding up a normal form's ranges counts its ports, each once. */
  lemma {:induction false} CountIsCardinality(rs: seq<Range>)
    requires Normal(rs)
    ensures Count(rs) == |PortSet(rs)|
  {
    if rs == [] {
      assert PortSet(rs) == {};
    } else {
      var init, last := rs[..|rs| - 1], rs[|rs| - 1];
      CountIsCardinality(init);
      RangeSize(last);
      PortSetSplits(rs);
    }
  }

  lemma PortSetSplits(rs: seq<Range>)
    requires Normal(rs) && rs != []
    ensures PortSet(rs) == PortSet(rs[..|rs| - 1]) + PortsOf(rs[|rs| - 1])
    ensures PortSet(rs[..|rs| - 1]) !! PortsOf(rs[|rs| - 1])
  {
    var init, last := rs[..|rs| - 1], rs[|rs| - 1];
    forall port
      ensures port in PortSet(rs) <==> port in PortSet(init) + PortsOf(last)
    {
      CoversInit(rs, port);
    }
    forall port | port in PortSet(init)
      ensures port !in PortsOf(last)
    {
      var n :| 0 <= n < |init| && In(init[n], port);
      assert rs[n].hi + 1 < last.lo;
    }
  }

  // ------------------------------------------------------------ normal text

  function PartText(r: Range): string {
    if r.lo == r.hi then Decimal(r.lo) else Decimal(r.lo) + "-" + Decimal(r.hi)
  }

  function Text(rs: seq<Range>): string {
    if rs == [] then ""
    else if |rs| == 1 then PartText(rs[0])
    else PartText(rs[0]) + "," + Text(rs[1..])
  }

  lemma PortReads(n: nat)
    requires n <= MAX_PORT
    ensures IsNumber(Decimal(n)) && Value(Decimal(n)) == n
  {
    DecimalReads(n);
    assert Power(5) == 100000 by {
      assert Power(2) == 100;
      assert Power(4) == 10000;
    }
    DecimalShort(n, 5);
  }

  lemma {:induction false} SplitOne(p: string, c: char)
    requires c !in p
    ensures Split(p, c) == [p]
  {
    if p != "" {
      SplitOne(p[1..], c);
      assert p == [p[0]] + p[1..];
    }
  }

  lemma {:induction false} SplitFirst(p: string, c: char, rest: string)
    requires c !in p
    ensures Split(p + [c] + rest, c) == [p] + Split(rest, c)
  {
    var s := p + [c] + rest;
    if p == "" {
      assert s[1..] == rest;
    } else {
      SplitFirst(p[1..], c, rest);
      assert s[1..] == p[1..] + [c] + rest;
      assert p == [p[0]] + p[1..];
    }
  }

  lemma PartReads(r: Range)
    requires ValidRange(r)
    ensures ParsePart(PartText(r)) == Some(r)
    ensures forall n :: 0 <= n < |PartText(r)| ==> Digit(PartText(r)[n]) || PartText(r)[n] == '-'
  {
    PortReads(r.lo);
    PortReads(r.hi);
    if r.lo == r.hi {
      SplitOne(Decimal(r.lo), '-');
    } else {
      SplitFirst(Decimal(r.lo), '-', Decimal(r.hi));
      SplitOne(Decimal(r.hi), '-');
    }
  }

  predicate Plain(s: string) {
    forall n :: 0 <= n < |s| ==> s[n] != ' ' && s[n] != '\n'
  }

  lemma {:induction false} PlainStays(s: string)
    requires Plain(s)
    ensures WithoutSpaces(s) == s
  {
    if s != "" {
      PlainStays(s[1..]);
      assert s == [s[0]] + s[1..];
    }
  }

  lemma PartsReadOneMore(parts: seq<string>, head: string, r: Range, rs: seq<Range>)
    requires ParsePart(head) == Some(r) && ValidRange(r) && ParseParts(parts) == Some(rs)
    ensures ParseParts([head] + parts) == Some([r] + rs)
  {
    assert ([head] + parts)[1..] == parts;
  }

  lemma PlainPart(r: Range)
    requires ValidRange(r)
    ensures Plain(PartText(r)) && ',' !in PartText(r)
  {
    PartReads(r);
  }

  lemma {:induction false} PlainText(rs: seq<Range>)
    requires AllValid(rs)
    ensures Plain(Text(rs))
  {
    if rs != [] {
      PlainPart(rs[0]);
      PlainText(rs[1..]);
    }
  }

  lemma {:induction false} TextSplits(rs: seq<Range>)
    requires rs != [] && AllValid(rs)
    ensures ParseParts(Split(Text(rs), ',')) == Some(rs)
  {
    PlainPart(rs[0]);
    PartReads(rs[0]);
    if |rs| == 1 {
      SplitOne(PartText(rs[0]), ',');
      PartsReadOneMore([], PartText(rs[0]), rs[0], []);
      assert [rs[0]] + [] == rs;
      assert [PartText(rs[0])] + [] == [PartText(rs[0])];
    } else {
      TextSplits(rs[1..]);
      SplitFirst(PartText(rs[0]), ',', Text(rs[1..]));
      PartsReadOneMore(Split(Text(rs[1..]), ','), PartText(rs[0]), rs[0], rs[1..]);
      assert rs == [rs[0]] + rs[1..];
    }
  }

  /** The printed normal form reads back as the same ranges, and compiling those gives them back unchanged. */
  lemma NormalTextRoundTrip(rs: seq<Range>)
    requires Normal(rs) && rs != []
    ensures Parse(Text(rs)) == Some(rs)
    ensures Compiled(rs) == rs
  {
    TextSplits(rs);
    PlainText(rs);
    PlainStays(Text(rs));
    assert Body(Text(rs)) == Text(rs);
    CompiledMeans(rs);
    NormalFormIsUnique(Compiled(rs), rs);
  }

  // ------------------------------------------------------------- the grammar

  /** Parts joined by a character. */
  function Joined(parts: seq<string>, c: char): string
    requires parts != []
  {
    if |parts| == 1 then parts[0] else parts[0] + [c] + Joined(parts[1..], c)
  }

  predicate NoneHas(parts: seq<string>, c: char) {
    forall n :: 0 <= n < |parts| ==> c !in parts[n]
  }

  lemma {:induction false} SplitJoins(s: string, c: char)
    ensures Joined(Split(s, c), c) == s && NoneHas(Split(s, c), c)
  {
    if s != "" {
      SplitJoins(s[1..], c);
      var rest := Split(s[1..], c);
      assert s == [s[0]] + s[1..];
      if s[0] == c {
        assert ([""] + rest)[1..] == rest;
      } else {
        assert Split(s, c) == [[s[0]] + rest[0]] + rest[1..];
        assert |rest| > 1 ==> [s[0]] + (rest[0] + [c] + Joined(rest[1..], c)) == [s[0]] + rest[0] + [c] + Joined(rest[1..], c);
      }
    }
  }

  lemma {:induction false} JoinedSplits(parts: seq<string>, c: char)
    requires parts != [] && NoneHas(parts, c)
    ensures Split(Joined(parts, c), c) == parts
  {
    if |parts| == 1 {
      SplitOne(parts[0], c);
      assert parts == [parts[0]];
    } else {
      JoinedSplits(parts[1..], c);
      SplitFirst(parts[0], c, Joined(parts[1..], c));
      assert parts == [parts[0]] + parts[1..];
    }
  }

  /** One to five decimal digits for a number. */
  predicate Numeral(t: string, n: int) {
    1 <= |t| <= 5 && (forall i :: 0 <= i < |t| ==> '0' <= t[i] <= '9') && Value(t) == n
  }

  /** A part: a port, or the ends of a range with a dash between them; ports go from 1 to 65535. */
  ghost predicate Spells(p: string, r: Range) {
    1 <= r.lo <= r.hi <= 65535 && (Single(p, r) || exists a, b :: Dashed(p, a, b, r))
  }

  predicate Single(p: string, r: Range) {
    r.lo == r.hi && Numeral(p, r.lo)
  }

  predicate Dashed(p: string, a: string, b: string, r: Range) {
    p == a + "-" + b && Numeral(a, r.lo) && Numeral(b, r.hi)
  }

  lemma PartSpelled(p: string, r: Range)
    ensures ParsePart(p) == Some(r) && ValidRange(r) <==> Spells(p, r)
  {
    var ends := Split(p, '-');
    SplitJoins(p, '-');
    if |ends| == 2 {
      assert ends == [ends[0], ends[1]] && Joined(ends, '-') == ends[0] + "-" + ends[1];
      assert IsNumber(ends[0]) && IsNumber(ends[1]) ==> Dashed(p, ends[0], ends[1], Range(Value(ends[0]), Value(ends[1])));
    }
    if Spells(p, r) {
      if Single(p, r) {
        SplitOne(p, '-');
      } else {
        var a, b :| Dashed(p, a, b, r);
        assert [a, b][1..] == [b] && Joined([a, b], '-') == p && NoneHas([a, b], '-');
        JoinedSplits([a, b], '-');
      }
    }
  }

  ghost predicate SpellsAll(parts: seq<string>, rs: seq<Range>) {
    |parts| == |rs| && forall n :: 0 <= n < |parts| ==> Spells(parts[n], rs[n])
  }

  lemma SpelledPart(p: string, r: Range)
    requires Spells(p, r)
    ensures ',' !in p
  {
    if !Single(p, r) {
      var a, b :| Dashed(p, a, b, r);
    }
  }

  /** A specification is valid, and means these ranges, exactly when it is their parts joined by commas. */
  lemma ParseExactly(spec: string, rs: seq<Range>)
    ensures Parse(spec) == Some(rs) <==>
            exists parts :: parts != [] && SpellsAll(parts, rs) && Joined(parts, ',') == Body(WithoutSpaces(spec))
  {
    var text := Body(WithoutSpaces(spec));
    var parts := Split(text, ',');
    SplitJoins(text, ',');
    if Parse(spec) == Some(rs) {
      forall n | 0 <= n < |parts|
        ensures Spells(parts[n], rs[n])
      {
        PartSpelled(parts[n], rs[n]);
      }
      assert SpellsAll(parts, rs);
    }
    if other :| other != [] && SpellsAll(other, rs) && Joined(other, ',') == text {
      forall n | 0 <= n < |other|
        ensures ',' !in other[n] && ParsePart(other[n]) == Some(rs[n]) && ValidRange(rs[n])
      {
        SpelledPart(other[n], rs[n]);
        PartSpelled(other[n], rs[n]);
      }
      JoinedSplits(other, ',');
      assert ParseParts(parts).value == rs;
    }
  }

  lemma {:induction false} SpaceDropped(s: string, t: string)
    ensures WithoutSpaces(s + " " + t) == WithoutSpaces(s + t)
  {
    if s == "" {
      assert s + " " + t == " " + t && s + t == t && (" " + t)[1..] == t;
    } else {
      SpaceDropped(s[1..], t);
      assert (s + " " + t)[1..] == s[1..] + " " + t && (s + t)[1..] == s[1..] + t;
    }
  }

  /** Spaces do not matter, wherever they stand. */
  lemma SpacesIgnored(s: string, t: string)
    ensures Parse(s + " " + t) == Parse(s + t)
  {
    SpaceDropped(s, t);
  }

  // ------------------------------------------------------------- operations

  /** The parts of a specification in order, or nothing if it is not valid. */
  method ReadRanges(spec: string) returns (r: Option<seq<Range>>)
    ensures r == Parse(spec)
    ensures r.Some? ==> AllValid(r.value) && r.value != []
  {
    var parts := Split(Body(WithoutSpaces(spec)), ',');
    var out, n := [], 0;
    while n < |parts|
      invariant 0 <= n <= |parts| && |out| == n
      invariant forall m :: 0 <= m < n ==> ParsePart(parts[m]) == Some(out[m]) && ValidRange(out[m])
    {
      var part := ParsePart(parts[n]);
      if part.None? || !ValidRange(part.value) {
        return None;
      }
      out := out + [part.value];
      n := n + 1;
    }
    assert Parse(spec).value == out;
    return Some(out);
  }

  /** The compiled form: sorted ranges with gaps between them, covering exactly the listed ports. */
  method Compile(spec: string) returns (r: Option<seq<Range>>)
    ensures r.Some? <==> Parse(spec).Some?
    ensures r.Some? ==> r.value == Compiled(Parse(spec).value) && Normal(r.value) && r.value != []
    ensures r.Some? ==> forall port :: Covers(r.value, port) <==> Covers(Parse(spec).value, port)
  {
    var ranges := ReadRanges(spec);
    if ranges.None? {
      return None;
    }
    var sorted := Sort(ranges.value);
    var merged, n := [], 0;
    while n < |sorted|
      invariant 0 <= n <= |sorted|
      invariant merged == MergeAll(sorted[..n])
    {
      var range := sorted[n];
      assert sorted[..n + 1][..n] == sorted[..n];
      if merged != [] && range.lo <= merged[|merged| - 1].hi + 1 {
        merged := merged[|merged| - 1 := Range(merged[|merged| - 1].lo, Max(merged[|merged| - 1].hi, range.hi))];
      } else {
        merged := merged + [range];
      }
      n := n + 1;
    }
    assert sorted[..n] == sorted;
    CompiledMeans(ranges.value);
    assert merged != [] by {
      SortMeans(ranges.value);
      MergeAllMeans(sorted);
    }
    return Some(merged);
  }

  method PortInSpec(port: int, spec: string) returns (r: Option<bool>)
    ensures r.Some? <==> Parse(spec).Some?
    ensures r.Some? ==> r.value == Covers(Parse(spec).value, port)
  {
    var compiled := Compile(spec);
    return if compiled.None? then None else Some(Covers(compiled.value, port));
  }

  method CountPorts(spec: string) returns (r: Option<int>)
    ensures r.Some? <==> Parse(spec).Some?
    ensures r.Some? ==> r.value == |PortSet(Parse(spec).value)|
  {
    var compiled := Compile(spec);
    if compiled.None? {
      return None;
    }
    CountIsCardinality(compiled.value);
    assert PortSet(compiled.value) == PortSet(Parse(spec).value);
    return Some(Count(compiled.value));
  }

  /** The normal form of a specification is valid, means the same ports, and is its own normal form. */
  method Normalize(spec: string) returns (r: Option<string>)
    ensures r.Some? <==> Parse(spec).Some?
    ensures r.Some? ==> Parse(r.value) == Some(Compiled(Parse(spec).value))
    ensures r.Some? ==> Compiled(Parse(r.value).value) == Compiled(Parse(spec).value)
    ensures r.Some? ==> Text(Compiled(Parse(r.value).value)) == r.value
  {
    var compiled := Compile(spec);
    if compiled.None? {
      return None;
    }
    NormalTextRoundTrip(compiled.value);
    return Some(Text(compiled.value));
  }

  /** Two valid specifications have the same normal form exactly when they mean the same ports. */
  lemma SameTextSamePorts(a: seq<Range>, b: seq<Range>)
    requires AllValid(a) && AllValid(b) && a != [] && b != []
    ensures Text(Compiled(a)) == Text(Compiled(b)) <==> SameCover(a, b)
  {
    CompiledMeans(a);
    CompiledMeans(b);
    assert In(a[0], a[0].lo) && Covers(a, a[0].lo) && In(b[0], b[0].lo) && Covers(b, b[0].lo);
    assert Covers(Compiled(a), a[0].lo) && Covers(Compiled(b), b[0].lo);
    if Text(Compiled(a)) == Text(Compiled(b)) {
      NormalTextRoundTrip(Compiled(a));
      NormalTextRoundTrip(Compiled(b));
    }
    if SameCover(a, b) {
      NormalFormIsUnique(Compiled(a), Compiled(b));
    }
  }
}
