/** Semantic versions: the pattern manifests must meet, and the comparison the registry uses. */
module Semver {
  import opened Text
  import opened Wrappers

  predicate LetterOrDigit(c: char) {
    'a' <= c <= 'z' || 'A' <= c <= 'Z' || Digit(c)
  }

  predicate Numeral(s: string) {
    s != "" && forall i :: 0 <= i < |s| ==> Digit(s[i])
  }

  /** A numeral without leading zeros. */
  predicate CoreNumber(s: string) {
    Numeral(s) && (s == "0" || s[0] != '0')
  }

  predicate Identifiers(s: string) {
    s != "" && forall i :: 0 <= i < |s| ==> LetterOrDigit(s[i]) || s[i] == '.' || s[i] == '-'
  }

  /** The index of the first dash or plus sign, or the length. */
  function CoreEnd(s: string): (i: nat)
    ensures i <= |s|
    ensures forall k :: 0 <= k < i ==> s[k] != '-' && s[k] != '+'
    ensures i < |s| ==> s[i] == '-' || s[i] == '+'
  {
    if s == "" || s[0] == '-' || s[0] == '+' then 0 else 1 + CoreEnd(s[1..])
  }

  /** The pattern of semantic versions: three core numbers, an optional prerelease, an optional build. */
  predicate SemverText(s: string) {
    var n := CoreEnd(s);
    var core := Split(s[..n], '.');
    && |core| == 3 && CoreNumber(core[0]) && CoreNumber(core[1]) && CoreNumber(core[2])
    && SuffixOk(s[n..])
  }

  /** Nothing, a build, a prerelease, or a prerelease and a build. */
  predicate SuffixOk(rest: string) {
    if rest == "" then true
    else if rest[0] == '+' then Identifiers(rest[1..])
    else
      var k := IndexOf(rest, '+');
      k > 0 && Identifiers(rest[1..k]) && (k == |rest| || Identifiers(rest[k + 1..]))
  }

  // ---- Comparison ----

  /** The number a part reads as: the error of the conversion is ignored, its value is not. */
  function PartNumber(s: string): int {
    match Atoi(s)
    case Ok(n) => n
    case Err(n) => n
  }

  function Part(parts: seq<string>, i: nat): int {
    if i < |parts| then PartNumber(parts[i]) else 0
  }

  datatype Core = Core(major: int, minor: int, patch: int)

  function CoreOf(s: string): Core {
    var t := Trim(s);
    var parts := Split(t[..CoreEnd(t)], '.');
    Core(Part(parts, 0), Part(parts, 1), Part(parts, 2))
  }

  /** From the first dash to the next plus sign. */
  function AfterDash(t: string): string {
    var dash := IndexOf(t, '-');
    if dash == |t| then "" else
    var pre := t[dash + 1..];
    pre[..IndexOf(pre, '+')]
  }

  function Prerelease(s: string): string {
    AfterDash(Trim(s))
  }

  function Sign(a: int, b: int): int {
    if a > b then 1 else if a < b then -1 else 0
  }

  function CompareCores(a: Core, b: Core): int {
    if a.major != b.major then Sign(a.major, b.major)
    else if a.minor != b.minor then Sign(a.minor, b.minor)
    else Sign(a.patch, b.patch)
  }

  function ComparePrereleases(a: string, b: string): int {
    if a == b then 0 else if a == "" then 1 else if b == "" then -1 else if Leq(a, b) then -1 else 1
  }

  function CompareSemver(a: string, b: string): int {
    var c := CompareCores(CoreOf(a), CoreOf(b));
    if c != 0 then c else ComparePrereleases(Prerelease(a), Prerelease(b))
  }

  method Compare(a: string, b: string) returns (c: int)
    ensures c == CompareSemver(a, b)
  {
    hide CoreOf, Prerelease, Leq;
    var av, bv := CoreOf(a), CoreOf(b);
    var x, y := [av.major, av.minor, av.patch], [bv.major, bv.minor, bv.patch];
    for i := 0 to 3
      invariant forall k :: 0 <= k < i ==> x[k] == y[k]
    {
      assert i > 0 ==> x[0] == y[0];
      assert i > 1 ==> x[1] == y[1];
      if x[i] > y[i] { return 1; }
      if x[i] < y[i] { return -1; }
    }
    assert x[0] == y[0] && x[1] == y[1] && x[2] == y[2];
    var apre, bpre := Prerelease(a), Prerelease(b);
    if apre == bpre { return 0; }
    if apre == "" { return 1; }
    if bpre == "" { return -1; }
    return if Leq(apre, bpre) then -1 else 1;
  }

  lemma PrereleasesOrdered(a: string, b: string, c: string)
    ensures ComparePrereleases(a, b) == -ComparePrereleases(b, a)
    ensures ComparePrereleases(a, b) <= 0 && ComparePrereleases(b, c) <= 0 ==> ComparePrereleases(a, c) <= 0
    ensures ComparePrereleases(a, b) == 0 && ComparePrereleases(b, c) == 0 ==> ComparePrereleases(a, c) == 0
  {
    hide Leq;
    LeqTotal(a, b);
    LeqTotal(a, c);
    if Leq(a, b) && Leq(b, a) { LeqAntisymmetric(a, b); }
    if Leq(a, b) && Leq(b, c) { LeqTransitive(a, b, c); }
  }

  lemma CoresOrdered(a: Core, b: Core, c: Core)
    ensures CompareCores(a, b) == -CompareCores(b, a)
    ensures CompareCores(a, b) <= 0 && CompareCores(b, c) <= 0 ==> CompareCores(a, c) <= 0
    ensures CompareCores(a, b) <= 0 && CompareCores(b, c) <= 0 && CompareCores(a, c) == 0 ==>
              CompareCores(a, b) == 0 && CompareCores(b, c) == 0
  {
  }

  /** The comparison is a total preorder on all strings. */
  lemma CompareIsPreorder(a: string, b: string, c: string)
    ensures CompareSemver(a, a) == 0
    ensures CompareSemver(a, b) == -CompareSemver(b, a)
    ensures CompareSemver(a, b) <= 0 && CompareSemver(b, c) <= 0 ==> CompareSemver(a, c) <= 0
  {
    hide CoreOf, Prerelease, CompareCores, ComparePrereleases;
    CoresOrdered(CoreOf(a), CoreOf(b), CoreOf(c));
    CoresOrdered(CoreOf(a), CoreOf(a), CoreOf(a));
    PrereleasesOrdered(Prerelease(a), Prerelease(b), Prerelease(c));
    PrereleasesOrdered(Prerelease(a), Prerelease(a), Prerelease(a));
  }

  // ---- Agreement with the specification of semantic versions ----

  function NumeralValue(s: string): nat
    requires forall i :: 0 <= i < |s| ==> Digit(s[i])
  {
    if s == "" then 0 else NumeralValue(s[..|s| - 1]) * 10 + DigitValue(s[|s| - 1])
  }

  /** The value of the digits of `s` written after those of `n`. */
  function Continue(n: nat, s: string): nat
    requires forall i :: 0 <= i < |s| ==> Digit(s[i])
    decreases |s|
  {
    if s == "" then n else Continue(n * 10 + DigitValue(s[0]), s[1..])
  }

  lemma {:induction false} ContinueGrows(n: nat, s: string)
    requires forall i :: 0 <= i < |s| ==> Digit(s[i])
    ensures Continue(n, s) >= n
    decreases |s|
  {
    if s != "" { ContinueGrows(n * 10 + DigitValue(s[0]), s[1..]); }
  }

  lemma {:induction false} ContinueSnoc(n: nat, s: string, c: char)
    requires Digit(c) && forall i :: 0 <= i < |s| ==> Digit(s[i])
    ensures Continue(n, s + [c]) == Continue(n, s) * 10 + DigitValue(c)
    decreases |s|
  {
    if s == "" {
      assert s + [c] == [c] && [c][1..] == "";
      assert Continue(n * 10 + DigitValue(c), "") == n * 10 + DigitValue(c);
    } else {
      assert (s + [c])[1..] == s[1..] + [c];
      ContinueSnoc(n * 10 + DigitValue(s[0]), s[1..], c);
    }
  }

  lemma {:induction false} ContinueIsValue(s: string)
    requires forall i :: 0 <= i < |s| ==> Digit(s[i])
    ensures Continue(0, s) == NumeralValue(s)
  {
    if s != "" {
      var front := s[..|s| - 1];
      ContinueIsValue(front);
      assert s == front + [s[|s| - 1]];
      ContinueSnoc(0, front, s[|s| - 1]);
    }
  }

  lemma {:induction false} ScanReads(s: string, n: nat)
    requires (forall i :: 0 <= i < |s| ==> Digit(s[i])) && n <= MAX_UINT64
    ensures ScanUint(s, n) == if Continue(n, s) <= MAX_UINT64 then Ok(Continue(n, s)) else Err(true)
    decreases |s|
  {
    if s != "" {
      var m := n * 10 + DigitValue(s[0]);
      ContinueGrows(m, s[1..]);
      if m <= MAX_UINT64 { ScanReads(s[1..], m); }
    }
  }

  function Clamp(n: nat): nat {
    if n > MAX_INT64 then MAX_INT64 else n
  }

  /** A numeral reads as its value, up to the largest 64-bit integer. */
  lemma NumeralReads(s: string)
    requires Numeral(s)
    ensures PartNumber(s) == Clamp(NumeralValue(s))
  {
    hide Continue, NumeralValue;
    assert Digit(s[0]);
    ScanReads(s, 0);
    ContinueIsValue(s);
  }

  /** Two core numbers compare as their values do exactly when they are equal or one of them is below the
      largest 64-bit integer. */
  lemma NumbersAgreeIff(s: string, t: string)
    requires Numeral(s) && Numeral(t)
    ensures var x, y := NumeralValue(s), NumeralValue(t);
            Sign(PartNumber(s), PartNumber(t)) == Sign(x, y) <==> x == y || x < MAX_INT64 || y < MAX_INT64
  {
    NumeralReads(s);
    NumeralReads(t);
  }

  /** The exact core of a version that matches the pattern. */
  function ExactCore(s: string): Core
    requires SemverText(s)
  {
    var parts := Split(s[..CoreEnd(s)], '.');
    Core(NumeralValue(parts[0]), NumeralValue(parts[1]), NumeralValue(parts[2]))
  }

  predicate Small(c: Core) {
    c.major < MAX_INT64 && c.minor < MAX_INT64 && c.patch < MAX_INT64
  }

  lemma SemverIsTrimmed(s: string)
    requires SemverText(s)
    ensures Trim(s) == s
  {
    SemverEnds(s);
    TrimFixed(s);
  }

  predicate VersionChar(c: char) {
    LetterOrDigit(c) || c == '.' || c == '-' || c == '+'
  }

  lemma SemverEnds(s: string)
    requires SemverText(s)
    ensures Trimmed(s)
  {
    SemverChars(s);
    if s != "" {
      assert VersionChar(s[0]) && VersionChar(s[|s| - 1]);
    }
  }

  lemma SplitHead(s: string)
    ensures var n := IndexOf(s, '.'); Split(s, '.') == if n == |s| then [s] else [s[..n]] + Split(s[n + 1..], '.')
  {
    hide IndexOf;
  }

  lemma {:induction false} SplitChars(s: string, i: nat) returns (k: nat)
    requires i < |s| && s[i] != '.'
    ensures k < |Split(s, '.')| && s[i] in Split(s, '.')[k]
    decreases |s|
  {
    hide Split, IndexOf;
    var n := IndexOf(s, '.');
    SplitHead(s);
    if i < n {
      k := 0;
      assert s[..n][i] == s[i];
      assert s[..|s|] == s;
    } else {
      var rest := s[n + 1..];
      assert rest[i - n - 1] == s[i];
      var j := SplitChars(rest, i - n - 1);
      k := j + 1;
    }
  }

  lemma SemverChars(s: string)
    requires SemverText(s)
    ensures forall i :: 0 <= i < |s| ==> VersionChar(s[i])
  {
    hide Split, LetterOrDigit, SuffixOk;
    var n := CoreEnd(s);
    forall i | 0 <= i < |s| ensures VersionChar(s[i]) {
      if i < n {
        CoreChar(s, i);
      } else if i > n {
        SuffixChar(s[n..], i - n);
      }
    }
  }

  lemma CoreChar(s: string, i: nat)
    requires SemverText(s) && i < CoreEnd(s)
    ensures VersionChar(s[i])
  {
    hide Split;
    var core := s[..CoreEnd(s)];
    if s[i] != '.' {
      var k := SplitChars(core, i);
      assert CoreNumber(Split(core, '.')[k]);
    }
  }

  lemma IdentifiersAt(s: string, i: nat)
    requires Identifiers(s) && i < |s|
    ensures VersionChar(s[i])
  {
  }

  lemma SuffixChar(rest: string, j: nat)
    requires SuffixOk(rest) && 0 < j < |rest|
    ensures VersionChar(rest[j])
  {
    hide Identifiers, IndexOf, VersionChar;
    var k := IndexOf(rest, '+');
    if rest[0] == '+' {
      IdentifiersAt(rest[1..], j - 1);
    } else if j < k {
      IdentifiersAt(rest[1..k], j - 1);
    } else if j > k {
      IdentifiersAt(rest[k + 1..], j - k - 1);
    } else {
      PlusIsVersionChar();
    }
  }

  lemma PlusIsVersionChar()
    ensures VersionChar('+')
  {
  }

  /** The prerelease of a suffix, as the pattern reads it: after a leading dash, up to the build. */
  function SuffixPrerelease(rest: string): string
    requires SuffixOk(rest)
  {
    if rest == "" || rest[0] == '+' then "" else rest[1..IndexOf(rest, '+')]
  }

  function PatternPrerelease(s: string): string
    requires SemverText(s)
  {
    SuffixPrerelease(s[CoreEnd(s)..])
  }

  /** A build without a prerelease that holds a dash before its last character. */
  predicate DashedBuild(rest: string) {
    rest != "" && rest[0] == '+' && IndexOf(rest, '-') + 1 < |rest|
  }

  predicate DashInBuild(s: string) {
    DashedBuild(s[CoreEnd(s)..])
  }

  lemma {:induction false} IndexAfter(a: string, b: string, c: char)
    requires c !in a
    ensures IndexOf(a + b, c) == |a| + IndexOf(b, c)
  {
    if a == "" {
      assert a + b == b;
    } else {
      assert a[0] in a;
      assert (a + b)[1..] == a[1..] + b;
      IndexAfter(a[1..], b, c);
    }
  }

  lemma CoreHasNoDash(s: string)
    ensures '-' !in s[..CoreEnd(s)] && s == s[..CoreEnd(s)] + s[CoreEnd(s)..]
  {
    hide CoreEnd;
  }

  lemma IdentifiersHaveNoPlus(s: string)
    requires Identifiers(s)
    ensures '+' !in s
  {
  }

  lemma NoPlus(s: string)
    requires '+' !in s
    ensures IndexOf(s, '+') == |s|
  {
  }

  lemma AfterDashSkips(core: string, rest: string)
    requires '-' !in core
    ensures AfterDash(core + rest) == AfterDash(rest)
  {
    hide IndexOf;
    IndexAfter(core, rest, '-');
    var j := IndexOf(rest, '-');
    if j < |rest| { assert (core + rest)[|core| + j + 1..] == rest[j + 1..]; }
  }

  lemma DashedSuffix(rest: string)
    requires SuffixOk(rest) && rest != "" && rest[0] == '-'
    ensures AfterDash(rest) == SuffixPrerelease(rest)
  {
    hide Identifiers;
    assert IndexOf(rest, '-') == 0;
    assert IndexOf(rest, '+') == 1 + IndexOf(rest[1..], '+');
  }

  lemma BuildSuffix(rest: string)
    requires SuffixOk(rest) && rest != "" && rest[0] == '+'
    ensures AfterDash(rest) == "" <==> !DashedBuild(rest)
  {
    hide Identifiers, IndexOf;
    IdentifiersHaveNoPlus(rest[1..]);
    var j := IndexOf(rest, '-');
    if j < |rest| {
      assert j > 0;
      var pre := rest[j + 1..];
      assert pre == rest[1..][j..];
      NoPlus(pre);
    }
  }

  /** The prerelease the comparison uses is the pattern's exactly when no dash stands in a build alone. */
  lemma PrereleaseAgreesIff(s: string)
    requires SemverText(s)
    ensures Prerelease(s) == PatternPrerelease(s) <==> !DashInBuild(s)
  {
    hide Split, CoreNumber, Trim, SuffixOk, AfterDash;
    SemverIsTrimmed(s);
    var core, rest := s[..CoreEnd(s)], s[CoreEnd(s)..];
    CoreHasNoDash(s);
    AfterDashSkips(core, rest);
    if rest == "" {
      NothingAfterDash();
    } else if rest[0] == '+' {
      BuildSuffix(rest);
    } else {
      SuffixStart(s);
      DashedSuffix(rest);
    }
  }

  lemma NothingAfterDash()
    ensures AfterDash("") == ""
  {
  }

  lemma SuffixStart(s: string)
    ensures var rest := s[CoreEnd(s)..]; rest != "" ==> rest[0] == '-' || rest[0] == '+'
  {
  }

  /** On versions that match the pattern and whose core numbers stay below the largest 64-bit integer, the
      comparison is that of the exact cores, and at equal cores a prerelease comes before a release whose
      build holds no such dash. */
  lemma CoreAgrees(a: string, b: string)
    requires SemverText(a) && SemverText(b)
    requires Small(ExactCore(a)) && Small(ExactCore(b))
    ensures var c := CompareCores(ExactCore(a), ExactCore(b));
            && (c != 0 ==> CompareSemver(a, b) == c)
            && (c == 0 && PatternPrerelease(a) != "" && PatternPrerelease(b) == "" && !DashInBuild(b) ==> CompareSemver(a, b) == -1)
  {
    hide Split, Prerelease, PatternPrerelease, NumeralValue, Atoi, Trim, CoreNumber, SuffixOk;
    SemverIsTrimmed(a);
    SemverIsTrimmed(b);
    ReadsExactly(a);
    ReadsExactly(b);
    PrereleaseAgreesIff(a);
    PrereleaseAgreesIff(b);
    PrereleaseIsNoBuild(a);
  }

  /** Between two prereleases of one core, the one whose text comes first is the lower version. */
  lemma PrereleaseTextDecides(a: string, b: string)
    requires SemverText(a) && SemverText(b) && CoreOf(a) == CoreOf(b)
    requires PatternPrerelease(a) != "" && PatternPrerelease(b) != ""
    ensures CompareSemver(a, b) <= 0 <==> Leq(PatternPrerelease(a), PatternPrerelease(b))
  {
    hide Prerelease, PatternPrerelease, Leq, CoreOf, SemverText, Trim;
    PrereleaseIsNoBuild(a);
    PrereleaseIsNoBuild(b);
    PrereleaseAgreesIff(a);
    PrereleaseAgreesIff(b);
    LeqReflexive(PatternPrerelease(a));
  }

  lemma PrereleaseIsNoBuild(s: string)
    requires SemverText(s)
    ensures PatternPrerelease(s) != "" ==> !DashInBuild(s)
  {
    hide Split, CoreNumber, IndexOf;
  }

  lemma ReadsExactly(s: string)
    requires SemverText(s) && Small(ExactCore(s)) && Trim(s) == s
    ensures CoreOf(s) == ExactCore(s)
  {
    hide Split, NumeralValue, PartNumber, Identifiers;
    var parts := Split(s[..CoreEnd(s)], '.');
    NumeralReads(parts[0]);
    NumeralReads(parts[1]);
    NumeralReads(parts[2]);
  }
}
