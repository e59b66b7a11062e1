/**
 Comparing product versions and affected ranges (backend/app/threats/versions.py).
 */
module Versions {
  import opened Prelude
  import opened Decimals

  /** A run of digits, read as a number, or a run of letters. */
  datatype Token = Number(n: nat) | Word(w: string)

  type Version = seq<Token>

  const MAX_TOKENS := 12
  const MAX_TEXT := 64

  // ------------------------------------------------------------------ parsing

  predicate Letter(c: char) {
    'a' <= c <= 'z'
  }

  predicate Blank(c: char) {
    c == ' ' || c == '\t' || c == '\n' || c == '\r'
  }

  function LowerChar(c: char): char {
    if 'A' <= c <= 'Z' then 'a' + (c - 'A') else c
  }

  function Lower(s: string): string {
    if s == "" then "" else [LowerChar(s[0])] + Lower(s[1..])
  }

  function Strip(s: string): string {
    if s != "" && Blank(s[0]) then Strip(s[1..])
    else if s != "" && Blank(s[|s| - 1]) then Strip(s[..|s| - 1])
    else s
  }

  function DigitRun(s: string): (r: nat)
    ensures r <= |s| && forall n :: 0 <= n < r ==> Digit(s[n])
    ensures r < |s| ==> !Digit(s[r])
  {
    if s != "" && Digit(s[0]) then 1 + DigitRun(s[1..]) else 0
  }

  function LetterRun(s: string): (r: nat)
    ensures r <= |s| && forall n :: 0 <= n < r ==> Letter(s[n])
    ensures r < |s| ==> !Letter(s[r])
  {
    if s != "" && Letter(s[0]) then 1 + LetterRun(s[1..]) else 0
  }

  /** The runs of digits and of letters, in order; everything else separates. */
  function Tokens(s: string): seq<Token>
    decreases |s|
  {
    if s == "" then []
    else if Digit(s[0]) then
      var n := DigitRun(s);
      assert n >= 1;
      [Number(Value(s[..n]))] + Tokens(s[n..])
    else if Letter(s[0]) then
      var n := LetterRun(s);
      assert n >= 1;
      [Word(s[..n])] + Tokens(s[n..])
    else Tokens(s[1..])
  }

  function Unprefixed(text: string): string {
    if |text| >= 2 && text[0] == 'v' && Digit(text[1]) then text[1..] else text
  }

  function Front<T>(s: seq<T>, n: nat): seq<T> {
    if |s| > n then s[..n] else s
  }

  /** A version starts with a number; anything else is not comparable. */
  function Parse(value: string): (r: Option<Version>)
    ensures r.Some? ==> 1 <= |r.value| <= MAX_TOKENS && r.value[0].Number?
  {
    var text := Unprefixed(Lower(Strip(value)));
    if text == "" || !Digit(text[0]) then None
    else Some(Front(Tokens(Front(text, MAX_TEXT)), MAX_TOKENS))
  }

  /** Numbers joined by dots. */
  function Dotted(ns: seq<nat>): string {
    if ns == [] then "" else if |ns| == 1 then Decimal(ns[0]) else Decimal(ns[0]) + "." + Dotted(ns[1..])
  }

  function Numbers(ns: seq<nat>): seq<Token> {
    seq(|ns|, i requires 0 <= i < |ns| => Number(ns[i]))
  }

  predicate Plain(s: string) {
    forall n :: 0 <= n < |s| ==> Digit(s[n]) || s[n] == '.'
  }

  lemma {:induction false} PlainDotted(ns: seq<nat>)
    ensures Plain(Dotted(ns)) && (ns != [] ==> Dotted(ns) != "" && Digit(Dotted(ns)[0]))
  {
    if |ns| > 1 {
      PlainDotted(ns[1..]);
    }
  }

  lemma {:induction false} LowerPlain(s: string)
    requires Plain(s)
    ensures Lower(s) == s
  {
    if s != "" {
      LowerPlain(s[1..]);
      assert s == [s[0]] + s[1..];
    }
  }

  lemma {:induction false} RunOf(t: string, rest: string)
    requires Digits(t) && (rest == "" || !Digit(rest[0]))
    ensures DigitRun(t + rest) == |t|
  {
    if t == "" {
      assert t + rest == rest;
    } else {
      RunOf(t[1..], rest);
      assert (t + rest)[1..] == t[1..] + rest;
    }
  }

  lemma TokensOf(n: nat, rest: string)
    requires rest == "" || !Digit(rest[0])
    ensures Tokens(Decimal(n) + rest) == [Number(n)] + Tokens(rest)
  {
    var t := Decimal(n);
    RunOf(t, rest);
    DecimalReads(n);
    assert (t + rest)[..|t|] == t && (t + rest)[|t|..] == rest;
  }

  lemma NumbersSplit(ns: seq<nat>)
    requires ns != []
    ensures Numbers(ns) == [Number(ns[0])] + Numbers(ns[1..])
  {
  }

  lemma TokensAfterDot(rest: string)
    ensures Tokens("." + rest) == Tokens(rest)
  {
    assert ("." + rest)[1..] == rest;
  }

  lemma {:induction false} TokensDotted(ns: seq<nat>)
    ensures Tokens(Dotted(ns)) == Numbers(ns)
  {
    if ns != [] {
      NumbersSplit(ns);
      TokensDotted(ns[1..]);
      if |ns| == 1 {
        TokensOf(ns[0], "");
        assert Decimal(ns[0]) + "" == Dotted(ns);
      } else {
        var rest := "." + Dotted(ns[1..]);
        TokensOf(ns[0], rest);
        TokensAfterDot(Dotted(ns[1..]));
        assert Decimal(ns[0]) + rest == Dotted(ns);
      }
    }
  }

  lemma Unstripped(s: string)
    requires s != "" && !Blank(s[0]) && !Blank(s[|s| - 1])
    ensures Strip(s) == s
  {
  }

  lemma CleanReads(text: string)
    requires Plain(text) && text != "" && Digit(text[0])
    ensures Unprefixed(Lower(Strip(text))) == text
  {
    assert Digit(text[|text| - 1]) || text[|text| - 1] == '.';
    Unstripped(text);
    LowerPlain(text);
  }

  lemma PrefixedReads(text: string)
    requires Plain(text) && text != "" && Digit(text[0])
    ensures Unprefixed(Lower(Strip("v" + text))) == text
  {
    var prefixed := "v" + text;
    assert prefixed[1..] == text;
    assert prefixed[|prefixed| - 1] == text[|text| - 1];
    assert Digit(text[|text| - 1]) || text[|text| - 1] == '.';
    Unstripped(prefixed);
    LowerPlain(text);
    assert Lower(prefixed) == ['v'] + Lower(text);
  }

  /** A dotted text of at most 64 characters is read as its first twelve numbers, with or without a leading v. */
  lemma DottedReads(ns: seq<nat>)
    requires 1 <= |ns| && |Dotted(ns)| <= 64
    ensures Parse(Dotted(ns)) == Some(if |ns| <= 12 then Numbers(ns) else Numbers(ns[..12]))
    ensures Parse("v" + Dotted(ns)) == Parse(Dotted(ns))
  {
    PlainDotted(ns);
    CleanReads(Dotted(ns));
    PrefixedReads(Dotted(ns));
    TokensDotted(ns);
    if |ns| > 12 {
      assert Numbers(ns)[..12] == Numbers(ns[..12]);
    }
  }

  /** A character between the runs. */
  predicate Separator(c: char) {
    !('0' <= c <= '9') && !('a' <= c <= 'z')
  }

  predicate Gap(s: string) {
    forall n :: 0 <= n < |s| ==> Separator(s[n])
  }

  predicate Spellable(t: Token) {
    t.Number? || (t.w != "" && forall n :: 0 <= n < |t.w| ==> 'a' <= t.w[n] <= 'z')
  }

  function Spelling(t: Token): string {
    match t case Number(n) => Decimal(n) case Word(w) => w
  }

  /** Tokens with a gap after each; between two of a kind it is not empty. */
  predicate Spaced(ts: seq<Token>, gaps: seq<string>) {
    && |ts| == |gaps|
    && (forall i :: 0 <= i < |ts| ==> Spellable(ts[i]) && Gap(gaps[i]))
    && (forall i :: 0 <= i < |ts| - 1 && gaps[i] == "" ==> ts[i].Number? != ts[i + 1].Number?)
  }

  function Spelled(ts: seq<Token>, gaps: seq<string>): string
    requires |ts| == |gaps|
  {
    if ts == [] then "" else Spelling(ts[0]) + (gaps[0] + Spelled(ts[1..], gaps[1..]))
  }

  lemma {:induction false} WordRunOf(w: string, rest: string)
    requires (forall n :: 0 <= n < |w| ==> Letter(w[n])) && (rest == "" || !Letter(rest[0]))
    ensures LetterRun(w + rest) == |w|
  {
    if w == "" {
      assert w + rest == rest;
    } else {
      WordRunOf(w[1..], rest);
      assert (w + rest)[1..] == w[1..] + rest;
    }
  }

  lemma {:induction false} GapSkipped(gap: string, rest: string)
    requires Gap(gap)
    ensures Tokens(gap + rest) == Tokens(rest)
  {
    if gap == "" {
      assert gap + rest == rest;
    } else {
      GapSkipped(gap[1..], rest);
      assert Separator(gap[0]) && (gap + rest)[1..] == gap[1..] + rest;
    }
  }

  lemma TokenRead(t: Token, rest: string)
    requires Spellable(t) && (rest == "" || (t.Number? && !Digit(rest[0])) || (t.Word? && !Letter(rest[0])))
    ensures Tokens(Spelling(t) + rest) == [t] + Tokens(rest)
  {
    if t.Number? {
      TokensOf(t.n, rest);
    } else {
      WordRunOf(t.w, rest);
      assert (t.w + rest)[..|t.w|] == t.w && (t.w + rest)[|t.w|..] == rest;
      assert Letter(t.w[0]) && (t.w + rest)[0] == t.w[0];
    }
  }

  /** Any runs of digits and letters, however separated, are read back as they are. */
  lemma {:induction false} SpelledReads(ts: seq<Token>, gaps: seq<string>)
    requires Spaced(ts, gaps)
    ensures Tokens(Spelled(ts, gaps)) == ts
  {
    if ts != [] {
      var rest := Spelled(ts[1..], gaps[1..]);
      assert Spaced(ts[1..], gaps[1..]);
      SpelledReads(ts[1..], gaps[1..]);
      GapSkipped(gaps[0], rest);
      assert gaps[0] != "" ==> Separator(gaps[0][0]);
      assert |ts| > 1 ==> ts[1..][0] == ts[1] && Spellable(ts[1]);
      TokenRead(ts[0], gaps[0] + rest);
      assert ts == [ts[0]] + ts[1..];
    }
  }

  lemma {:induction false} StripEnd(s: string, c: char)
    requires Blank(c)
    ensures Strip(s + [c]) == Strip(s)
    decreases |s|
  {
    if s != "" && Blank(s[0]) {
      StripEnd(s[1..], c);
      assert (s + [c])[1..] == s[1..] + [c];
    } else {
      assert (s + [c])[..|s|] == s;
      assert s == "" ==> (s + [c])[1..] == "";
    }
  }

  lemma {:induction false} LowerSame(s: string)
    ensures |Lower(s)| == |s| && forall n :: 0 <= n < |s| ==> Lower(s)[n] == LowerChar(s[n])
  {
    if s != "" {
      LowerSame(s[1..]);
    }
  }

  lemma {:induction false} StripLower(s: string)
    ensures Lower(Strip(s)) == Strip(Lower(s))
    decreases |s|
  {
    LowerSame(s);
    if s != "" && Blank(s[0]) {
      StripLower(s[1..]);
    } else if s != "" && Blank(s[|s| - 1]) {
      StripLower(s[..|s| - 1]);
      LowerSame(s[..|s| - 1]);
      assert Lower(s)[..|s| - 1] == Lower(s[..|s| - 1]);
    }
  }

  /** Blanks around a version and the case of its letters do not matter. */
  lemma SpellingIgnored(s: string, c: char, t: string)
    requires Blank(c)
    ensures Parse([c] + s) == Parse(s) && Parse(s + [c]) == Parse(s)
    ensures Lower(s) == Lower(t) ==> Parse(s) == Parse(t)
  {
    assert ([c] + s)[1..] == s;
    StripEnd(s, c);
    StripLower(s);
    StripLower(t);
  }

  // ---------------------------------------------------------------- comparing

  /** Alphabetical order of words. */
  function CompareWords(s: string, t: string): int {
    if s == "" && t == "" then 0
    else if s == "" then -1
    else if t == "" then 1
    else if s[0] < t[0] then -1
    else if s[0] > t[0] then 1
    else CompareWords(s[1..], t[1..])
  }

  /** Two numbers by value, two words by the alphabet; of a word and a number the number is greater. */
  function CompareTokens(x: Token, y: Token): int {
    match (x, y)
    case (Number(m), Number(n)) => if m < n then -1 else if m > n then 1 else 0
    case (Word(s), Word(t)) => CompareWords(s, t)
    case (Number(_), Word(_)) => 1
    case (Word(_), Number(_)) => -1
  }

  /** A missing position counts as zero. */
  function At(a: Version, i: nat): Token {
    if i < |a| then a[i] else Number(0)
  }

  function CompareFrom(a: Version, b: Version, i: nat, n: nat): int
    decreases n - i
  {
    if i >= n then 0
    else if At(a, i) == At(b, i) then CompareFrom(a, b, i + 1, n)
    else CompareTokens(At(a, i), At(b, i))
  }

  function Compare(a: Version, b: Version): int {
    CompareFrom(a, b, 0, Max(|a|, |b|))
  }

  lemma {:induction false} WordsLaws(s: string, t: string)
    ensures CompareWords(s, t) == -CompareWords(t, s)
    ensures -1 <= CompareWords(s, t) <= 1
    ensures CompareWords(s, t) == 0 <==> s == t
  {
    if s != "" && t != "" && s[0] == t[0] {
      WordsLaws(s[1..], t[1..]);
      assert s == [s[0]] + s[1..] && t == [t[0]] + t[1..];
    }
  }

  lemma {:induction false} WordsTransitive(s: string, t: string, u: string)
    requires CompareWords(s, t) <= 0 && CompareWords(t, u) <= 0
    ensures CompareWords(s, u) <= 0
  {
    if s != "" && t != "" && u != "" && s[0] == t[0] == u[0] {
      WordsTransitive(s[1..], t[1..], u[1..]);
    }
  }

  lemma TokenLaws(x: Token, y: Token)
    ensures CompareTokens(x, y) == -CompareTokens(y, x)
    ensures -1 <= CompareTokens(x, y) <= 1
    ensures CompareTokens(x, y) == 0 <==> x == y
  {
    if x.Word? && y.Word? {
      WordsLaws(x.w, y.w);
    }
  }

  lemma TokensTransitive(x: Token, y: Token, z: Token)
    requires CompareTokens(x, y) <= 0 && CompareTokens(y, z) <= 0
    ensures CompareTokens(x, z) <= 0
  {
    if x.Word? && y.Word? && z.Word? {
      WordsTransitive(x.w, y.w, z.w);
    }
  }

  /** Positions past both ends do not matter. */
  lemma {:induction false} CompareWider(a: Version, b: Version, i: nat, n: nat)
    requires n >= Max(|a|, |b|)
    ensures CompareFrom(a, b, i, n) == CompareFrom(a, b, i, Max(|a|, |b|))
    decreases n - i
  {
    if i < n {
      CompareWider(a, b, i + 1, n);
      if i >= Max(|a|, |b|) {
        assert At(a, i) == At(b, i);
      }
    }
  }

  lemma {:induction false} FromAntisymmetric(a: Version, b: Version, i: nat, n: nat)
    ensures CompareFrom(a, b, i, n) == -CompareFrom(b, a, i, n)
    ensures -1 <= CompareFrom(a, b, i, n) <= 1
    decreases n - i
  {
    if i < n {
      TokenLaws(At(a, i), At(b, i));
      FromAntisymmetric(a, b, i + 1, n);
    }
  }

  lemma Antisymmetric(a: Version, b: Version)
    ensures Compare(a, b) == -Compare(b, a)
    ensures -1 <= Compare(a, b) <= 1
  {
    FromAntisymmetric(a, b, 0, Max(|a|, |b|));
  }

  lemma {:induction false} FromTransitive(a: Version, b: Version, c: Version, i: nat, n: nat)
    requires CompareFrom(a, b, i, n) <= 0 && CompareFrom(b, c, i, n) <= 0
    ensures CompareFrom(a, c, i, n) <= 0
    ensures CompareFrom(a, b, i, n) < 0 || CompareFrom(b, c, i, n) < 0 ==> CompareFrom(a, c, i, n) < 0
    decreases n - i
  {
    if i < n {
      var x, y, z := At(a, i), At(b, i), At(c, i);
      TokenLaws(x, y);
      TokenLaws(y, z);
      TokenLaws(x, z);
      if x == y == z {
        FromTransitive(a, b, c, i + 1, n);
      } else {
        TokensTransitive(x, y, z);
      }
    }
  }

  /** The order is transitive, and strictly so when either step is strict. */
  lemma Transitive(a: Version, b: Version, c: Version)
    requires Compare(a, b) <= 0 && Compare(b, c) <= 0
    ensures Compare(a, c) <= 0
    ensures Compare(a, b) < 0 || Compare(b, c) < 0 ==> Compare(a, c) < 0
  {
    var n := Max(Max(|a|, |b|), |c|);
    CompareWider(a, b, 0, n);
    CompareWider(b, c, 0, n);
    CompareWider(a, c, 0, n);
    FromTransitive(a, b, c, 0, n);
  }

  /** The word comes first in the alphabet: it begins the other, or has the smaller letter where they first differ. */
  ghost predicate Alphabetical(s: string, t: string) {
    s < t || exists k :: 0 <= k < |s| && k < |t| && s[..k] == t[..k] && s[k] < t[k]
  }

  ghost predicate Below(x: Token, y: Token) {
    || (x.Number? && y.Number? && x.n < y.n)
    || (x.Word? && y.Word? && Alphabetical(x.w, y.w))
    || (x.Word? && y.Number?)
  }

  lemma {:induction false} WordsAlphabetical(s: string, t: string)
    ensures CompareWords(s, t) < 0 <==> Alphabetical(s, t)
  {
    if s != "" && t != "" {
      if s[0] == t[0] {
        WordsAlphabetical(s[1..], t[1..]);
        ShiftedAlphabetical(s, t);
      } else {
        assert s[..0] == t[..0];
      }
    }
  }

  lemma ShiftedAlphabetical(s: string, t: string)
    requires s != "" && t != "" && s[0] == t[0]
    ensures Alphabetical(s, t) <==> Alphabetical(s[1..], t[1..])
  {
    var u, v := s[1..], t[1..];
    assert s == [s[0]] + u && t == [t[0]] + v;
    if k :| 0 <= k < |s| && k < |t| && s[..k] == t[..k] && s[k] < t[k] {
      assert k > 0;
      assert u[..k - 1] == s[..k][1..] && v[..k - 1] == t[..k][1..];
      assert u[k - 1] < v[k - 1];
    }
    if k :| 0 <= k < |u| && k < |v| && u[..k] == v[..k] && u[k] < v[k] {
      assert s[..k + 1] == [s[0]] + u[..k] && t[..k + 1] == [t[0]] + v[..k];
      assert s[k + 1] < t[k + 1];
    }
  }

  /** The first position that differs decides. */
  lemma {:induction false} FirstDifferenceFrom(a: Version, b: Version, i: nat, k: nat, n: nat)
    requires i <= k < n && At(a, k) != At(b, k) && forall j :: i <= j < k ==> At(a, j) == At(b, j)
    ensures CompareFrom(a, b, i, n) == CompareTokens(At(a, k), At(b, k))
    decreases n - i
  {
    if i < k {
      FirstDifferenceFrom(a, b, i + 1, k, n);
    }
  }

  /**
   The first position where two versions differ decides: numbers by value, words by the alphabet, a word below
   a number, and a missing position as zero.
   */
  lemma FirstDifferenceDecides(a: Version, b: Version, k: nat)
    requires At(a, k) != At(b, k) && forall j :: 0 <= j < k ==> At(a, j) == At(b, j)
    ensures Compare(a, b) < 0 <==> Below(At(a, k), At(b, k))
  {
    FirstDifferenceFrom(a, b, 0, k, Max(|a|, |b|));
    if At(a, k).Word? && At(b, k).Word? {
      WordsAlphabetical(At(a, k).w, At(b, k).w);
    }
  }

  /** The version without its trailing zeros. */
  function Trimmed(a: Version): Version {
    if a != [] && a[|a| - 1] == Number(0) then Trimmed(a[..|a| - 1]) else a
  }

  lemma {:induction false} TrimmedSame(a: Version, i: nat)
    ensures At(Trimmed(a), i) == At(a, i)
    ensures |Trimmed(a)| <= |a| && (Trimmed(a) != [] ==> Trimmed(a)[|Trimmed(a)| - 1] != Number(0))
  {
    if a != [] && a[|a| - 1] == Number(0) {
      TrimmedSame(a[..|a| - 1], i);
    }
  }

  lemma {:induction false} ZeroFrom(a: Version, b: Version, i: nat, n: nat)
    ensures CompareFrom(a, b, i, n) == 0 <==> forall j :: i <= j < n ==> At(a, j) == At(b, j)
    decreases n - i
  {
    if i < n {
      TokenLaws(At(a, i), At(b, i));
      ZeroFrom(a, b, i + 1, n);
    }
  }

  /** Versions compare equal exactly when they agree up to trailing zeros. */
  lemma EqualUpToTrailingZeros(a: Version, b: Version)
    ensures Compare(a, b) == 0 <==> Trimmed(a) == Trimmed(b)
  {
    var n := Max(|a|, |b|);
    ZeroFrom(a, b, 0, n);
    forall i: nat
      ensures At(Trimmed(a), i) == At(a, i) && At(Trimmed(b), i) == At(b, i)
    {
      TrimmedSame(a, i);
      TrimmedSame(b, i);
    }
    TrimmedSame(a, 0);
    TrimmedSame(b, 0);
    if Trimmed(a) == Trimmed(b) {
      assert forall j: nat :: At(a, j) == At(Trimmed(a), j) == At(b, j);
    }
    if Compare(a, b) == 0 {
      var s, t := Trimmed(a), Trimmed(b);
      assert forall j: nat :: j < n ==> At(s, j) == At(a, j) == At(b, j) == At(t, j);
      SameLength(s, t, n);
      SameLength(t, s, n);
      assert forall j :: 0 <= j < |s| ==> s[j] == At(s, j) == At(t, j) == t[j];
    }
  }

  lemma SameLength(s: Version, t: Version, n: nat)
    requires |s| <= n && forall j: nat :: j < n ==> At(s, j) == At(t, j)
    requires s != [] ==> s[|s| - 1] != Number(0)
    ensures |s| <= |t|
  {
    assert s != [] ==> At(s, |s| - 1) == At(t, |s| - 1);
  }

  // ------------------------------------------------------------------- ranges

  /** From a version on, before a fixed one, up to a last affected one; each is optional. */
  datatype Range = Range(introduced: Option<Version>, fixed: Option<Version>, lastAffected: Option<Version>)

  predicate Less(a: Version, b: Version) {
    Compare(a, b) < 0
  }

  predicate InRange(v: Version, r: Range) {
    && !(r.introduced.Some? && Less(v, r.introduced.value))
    && !(r.fixed.Some? && !Less(v, r.fixed.value))
    && !(r.lastAffected.Some? && Less(r.lastAffected.value, v))
  }

  lemma NotLess(a: Version, b: Version)
    ensures !Less(a, b) <==> Compare(b, a) <= 0
  {
    Antisymmetric(a, b);
  }

  /** In a range: not before the version that introduced it, before the one that fixed it, not after the last affected. */
  lemma InRangeMeans(v: Version, r: Range)
    ensures InRange(v, r) <==>
            && (r.introduced.Some? ==> Compare(v, r.introduced.value) >= 0)
            && (r.fixed.Some? ==> Compare(v, r.fixed.value) < 0)
            && (r.lastAffected.Some? ==> Compare(v, r.lastAffected.value) <= 0)
  {
    if r.lastAffected.Some? {
      NotLess(r.lastAffected.value, v);
    }
  }

  /** The ends of a range: what introduced it and the last affected one are in it, what fixed it is not. */
  lemma RangeEnds(r: Range)
    ensures r.introduced.Some? && r.fixed.None? && r.lastAffected.None? ==> InRange(r.introduced.value, r)
    ensures r.introduced.None? && r.fixed.None? && r.lastAffected.Some? ==> InRange(r.lastAffected.value, r)
    ensures r.fixed.Some? ==> !InRange(r.fixed.value, r)
  {
    if r.introduced.Some? {
      Antisymmetric(r.introduced.value, r.introduced.value);
    }
    if r.lastAffected.Some? {
      Antisymmetric(r.lastAffected.value, r.lastAffected.value);
    }
    if r.fixed.Some? {
      Antisymmetric(r.fixed.value, r.fixed.value);
    }
  }

  /** An affected range has no holes. */
  lemma RangesAreConvex(lo: Version, v: Version, hi: Version, r: Range)
    requires Compare(lo, v) <= 0 && Compare(v, hi) <= 0
    requires InRange(lo, r) && InRange(hi, r)
    ensures InRange(v, r)
  {
    if r.introduced.Some? {
      NotLess(lo, r.introduced.value);
      Transitive(r.introduced.value, lo, v);
      NotLess(v, r.introduced.value);
    }
    if r.fixed.Some? {
      Transitive(v, hi, r.fixed.value);
    }
    if r.lastAffected.Some? {
      NotLess(r.lastAffected.value, hi);
      Transitive(v, hi, r.lastAffected.value);
      NotLess(r.lastAffected.value, v);
    }
  }

  /** Versions that compare equal are in the same ranges. */
  lemma EqualVersionsShareRanges(a: Version, b: Version, r: Range)
    requires Compare(a, b) == 0
    ensures InRange(a, r) == InRange(b, r)
  {
    Antisymmetric(a, b);
    if InRange(a, r) {
      RangesAreConvex(a, b, a, r);
    }
    if InRange(b, r) {
      RangesAreConvex(b, a, b, r);
    }
  }
}
