/** Release ordering and selection (apps/macos/Updater.swift), compared with
    section 11 of Semantic Versioning 2.0.0. */
module Releases {
  import opened Decimal
  import opened Outcomes

  const INT_MAX := 0x7FFF_FFFF_FFFF_FFFF
  const INT_MIN := -0x8000_0000_0000_0000

  // ---------------------------------------------------------------- text

  /** All pieces between separators, empty ones included. */
  function Split(s: string, separator: char): (pieces: seq<string>)
    ensures |pieces| > 0
    ensures forall i :: 0 <= i < |pieces| ==> separator !in pieces[i]
  {
    if s == [] then [[]]
    else
      var rest := Split(s[1..], separator);
      if s[0] == separator then [[]] + rest else [[s[0]] + rest[0]] + rest[1..]
  }

  /** Everything before the first separator. */
  function Before(s: string, separator: char): (front: string)
    ensures separator !in front && front <= s
    ensures |front| < |s| ==> s[|front|] == separator
  {
    if s == [] || s[0] == separator then [] else [s[0]] + Before(s[1..], separator)
  }

  function SkipLeading(s: string, c: char): string {
    if s != [] && s[0] == c then SkipLeading(s[1..], c) else s
  }

  function Join(pieces: seq<string>, separator: char): string
    requires |pieces| > 0
  {
    if |pieces| == 1 then pieces[0] else pieces[0] + [separator] + Join(pieces[1..], separator)
  }

  /** Swift's `Int(String)` on a 64-bit platform: an optional sign, then digits, in range. */
  function SwiftInt(s: string): Option<int> {
    var signed := s != [] && (s[0] == '-' || s[0] == '+');
    var body := if signed then s[1..] else s;
    if body == [] || !AllDigits(body) then None
    else
      var size: int := Value(body);
      var value := if signed && s[0] == '-' then -size else size;
      if INT_MIN <= value <= INT_MAX then Some(value) else None
  }

  // ---------------------------------------------------------------- versions

  datatype ReleaseVersion = ReleaseVersion(core: seq<int>, prerelease: seq<string>)

  /** Leading plus signs give empty pieces, which Swift's `split` omits. */
  function Base(text: string): string {
    var skipped := SkipLeading(text, '+');
    if skipped == [] then text else Before(skipped, '+')
  }

  function Parse(text: string): Option<ReleaseVersion> {
    ParseBase(Base(text))
  }

  function ParseBase(base: string): Option<ReleaseVersion> {
    var front := Before(base, '-');
    var fields := Split(front, '.');
    if |fields| != 3 || exists i :: 0 <= i < 3 && SwiftInt(fields[i]).None? then None
    else
      var core := seq(3, i requires 0 <= i < 3 => SwiftInt(fields[i]).value);
      var prerelease := if |front| == |base| then [] else Split(base[|front| + 1..], '.');
      if [] in prerelease then None else Some(ReleaseVersion(core, prerelease))
  }

  predicate StringLess(a: string, b: string) {
    b != [] && (a == [] || a[0] < b[0] || (a[0] == b[0] && StringLess(a[1..], b[1..])))
  }

  predicate CoreLess(a: seq<int>, b: seq<int>) {
    b != [] && (a == [] || a[0] < b[0] || (a[0] == b[0] && CoreLess(a[1..], b[1..])))
  }

  predicate IdentifierLess(left: string, right: string) {
    match (SwiftInt(left), SwiftInt(right))
    case (Some(l), Some(r)) => l < r
    case (Some(_), None) => true
    case (None, Some(_)) => false
    case (None, None) => StringLess(left, right)
  }

  /** The loop of `<`: the first differing pair decides, then the count. */
  predicate PrereleaseLess(a: seq<string>, b: seq<string>) {
    if a == [] || b == [] then |a| < |b|
    else if a[0] != b[0] then IdentifierLess(a[0], b[0])
    else PrereleaseLess(a[1..], b[1..])
  }

  predicate Less(a: ReleaseVersion, b: ReleaseVersion) {
    if a.core != b.core then CoreLess(a.core, b.core)
    else if a.prerelease == [] || b.prerelease == [] then a.prerelease != [] && b.prerelease == []
    else PrereleaseLess(a.prerelease, b.prerelease)
  }

  // ---------------------------------------------------------------- first differences

  predicate Agree<T(==)>(a: seq<T>, b: seq<T>, i: nat) {
    i <= |a| && i <= |b| && forall j :: 0 <= j < i ==> a[j] == b[j]
  }

  lemma AgreeShift<T>(a: seq<T>, b: seq<T>, i: nat)
    requires a != [] && b != []
    ensures Agree(a, b, i + 1) <==> a[0] == b[0] && Agree(a[1..], b[1..], i)
  {
    if a[0] == b[0] && Agree(a[1..], b[1..], i) {
      assert forall j :: 0 < j < i + 1 ==> a[j] == a[1..][j - 1] && b[j] == b[1..][j - 1];
    }
  }

  /** The first differing elements decide; a proper prefix comes first. */
  ghost predicate Precedes<T>(a: seq<T>, b: seq<T>, below: (T, T) -> bool) {
    exists i: nat :: Agree(a, b, i)
      && (i == |a| < |b| || (i < |a| && i < |b| && a[i] != b[i] && below(a[i], b[i])))
  }

  lemma PrecedesUnfolds<T>(a: seq<T>, b: seq<T>, below: (T, T) -> bool)
    ensures Precedes(a, b, below)
            <==> if a == [] || b == [] then |a| < |b|
                 else if a[0] != b[0] then below(a[0], b[0])
                 else Precedes(a[1..], b[1..], below)
  {
    if a == [] || b == [] || a[0] != b[0] {
      assert Agree(a, b, 0);
    } else {
      if Precedes(a[1..], b[1..], below) {
        var i: nat :| Agree(a[1..], b[1..], i)
                      && (i == |a[1..]| < |b[1..]|
                          || (i < |a[1..]| && i < |b[1..]| && a[1..][i] != b[1..][i] && below(a[1..][i], b[1..][i])));
        AgreeShift(a, b, i);
      }
      if Precedes(a, b, below) {
        var i: nat :| Agree(a, b, i)
                      && (i == |a| < |b| || (i < |a| && i < |b| && a[i] != b[i] && below(a[i], b[i])));
        AgreeShift(a, b, i - 1);
      }
    }
  }

  // ---------------------------------------------------------------- strict order

  lemma {:induction false} StringLessIsTotalOrder(a: string, b: string, c: string)
    ensures !StringLess(a, a)
    ensures StringLess(a, b) && StringLess(b, c) ==> StringLess(a, c)
    ensures a == b || StringLess(a, b) || StringLess(b, a)
    ensures !(StringLess(a, b) && StringLess(b, a))
  {
    var ta, tb, tc := if a == [] then a else a[1..], if b == [] then b else b[1..], if c == [] then c else c[1..];
    if a != [] || b != [] || c != [] {
      StringLessIsTotalOrder(ta, tb, tc);
    }
    if a != [] && b != [] && a[0] == b[0] && ta == tb {
      assert a == [a[0]] + ta && b == [b[0]] + tb;
    }
  }

  lemma {:induction false} CoreLessIsTotalOrder(a: seq<int>, b: seq<int>, c: seq<int>)
    ensures !CoreLess(a, a)
    ensures CoreLess(a, b) && CoreLess(b, c) ==> CoreLess(a, c)
    ensures a == b || CoreLess(a, b) || CoreLess(b, a)
    ensures !(CoreLess(a, b) && CoreLess(b, a))
  {
    var ta, tb, tc := if a == [] then a else a[1..], if b == [] then b else b[1..], if c == [] then c else c[1..];
    if a != [] || b != [] || c != [] {
      CoreLessIsTotalOrder(ta, tb, tc);
    }
    if a != [] && b != [] && a[0] == b[0] && ta == tb {
      assert a == [a[0]] + ta && b == [b[0]] + tb;
    }
  }

  lemma IdentifierLessIsStrictOrder(a: string, b: string, c: string)
    ensures !IdentifierLess(a, a)
    ensures !(IdentifierLess(a, b) && IdentifierLess(b, a))
    ensures IdentifierLess(a, b) && IdentifierLess(b, c) ==> IdentifierLess(a, c)
  {
    StringLessIsTotalOrder(a, b, c);
  }

  lemma {:induction false} PrereleaseLessIsStrictOrder(a: seq<string>, b: seq<string>, c: seq<string>)
    ensures !PrereleaseLess(a, a)
    ensures !(PrereleaseLess(a, b) && PrereleaseLess(b, a))
    ensures PrereleaseLess(a, b) && PrereleaseLess(b, c) ==> PrereleaseLess(a, c)
  {
    if a != [] && b != [] && c != [] {
      IdentifierLessIsStrictOrder(a[0], b[0], c[0]);
      PrereleaseLessIsStrictOrder(a[1..], b[1..], c[1..]);
    } else if a != [] && b != [] {
      IdentifierLessIsStrictOrder(a[0], b[0], b[0]);
      PrereleaseLessIsStrictOrder(a[1..], b[1..], []);
    } else if a != [] {
      PrereleaseLessIsStrictOrder(a[1..], [], []);
    }
  }

  /** `<` is a strict partial order on all versions. */
  lemma LessIsStrictOrder(a: ReleaseVersion, b: ReleaseVersion, c: ReleaseVersion)
    ensures !Less(a, a)
    ensures !(Less(a, b) && Less(b, a))
    ensures Less(a, b) && Less(b, c) ==> Less(a, c)
  {
    CoreLessIsTotalOrder(a.core, b.core, c.core);
    PrereleaseLessIsStrictOrder(a.prerelease, b.prerelease, c.prerelease);
  }

  // ---------------------------------------------------------------- trichotomy

  /** Distinct spellings of one integer, such as `01` and `1` or `-0` and `0`. */
  predicate Tied(x: string, y: string) {
    x != y && SwiftInt(x).Some? && SwiftInt(x) == SwiftInt(y)
  }

  predicate FirstDifferenceIsTied(a: seq<string>, b: seq<string>) {
    exists i: nat :: Agree(a, b, i) && i < |a| && i < |b| && Tied(a[i], b[i])
  }

  predicate Unordered(a: ReleaseVersion, b: ReleaseVersion) {
    a != b && !Less(a, b) && !Less(b, a)
  }

  lemma TieUnfolds(a: seq<string>, b: seq<string>)
    requires a != [] && b != []
    ensures FirstDifferenceIsTied(a, b)
            <==> if a[0] != b[0] then Tied(a[0], b[0]) else FirstDifferenceIsTied(a[1..], b[1..])
  {
    if a[0] != b[0] {
      assert Agree(a, b, 0);
    } else {
      if FirstDifferenceIsTied(a[1..], b[1..]) {
        var i: nat :| Agree(a[1..], b[1..], i) && i < |a[1..]| && i < |b[1..]| && Tied(a[1..][i], b[1..][i]);
        AgreeShift(a, b, i);
        assert Tied(a[i + 1], b[i + 1]);
      }
      if FirstDifferenceIsTied(a, b) {
        var i: nat :| Agree(a, b, i) && i < |a| && i < |b| && Tied(a[i], b[i]);
        AgreeShift(a, b, i - 1);
        assert Tied(a[1..][i - 1], b[1..][i - 1]);
      }
    }
  }

  lemma {:induction false} PrereleaseUnordered(a: seq<string>, b: seq<string>)
    ensures a != b && !PrereleaseLess(a, b) && !PrereleaseLess(b, a) <==> FirstDifferenceIsTied(a, b)
  {
    if a != [] && b != [] {
      TieUnfolds(a, b);
      StringLessIsTotalOrder(a[0], b[0], b[0]);
      PrereleaseUnordered(a[1..], b[1..]);
      assert a == [a[0]] + a[1..] && b == [b[0]] + b[1..];
    }
  }

  /** Exactly which distinct versions `<` leaves unordered. */
  lemma UnorderedExactly(a: ReleaseVersion, b: ReleaseVersion)
    ensures Unordered(a, b) <==> a.core == b.core && FirstDifferenceIsTied(a.prerelease, b.prerelease)
  {
    CoreLessIsTotalOrder(a.core, b.core, b.core);
    PrereleaseUnordered(a.prerelease, b.prerelease);
  }

  /** Everything `Int` reads in the version is spelled as a canonical unsigned decimal. */
  predicate CanonicalNumbers(v: ReleaseVersion) {
    forall i :: 0 <= i < |v.prerelease| && SwiftInt(v.prerelease[i]).Some? ==> Canonical(v.prerelease[i])
  }

  lemma SwiftIntOfCanonical(s: string)
    requires Canonical(s)
    ensures SwiftInt(s) == if Value(s) <= INT_MAX then Some(Value(s)) else None
  {
    assert IsDigit(s[0]);
  }

  lemma Trichotomy(a: ReleaseVersion, b: ReleaseVersion)
    requires CanonicalNumbers(a) && CanonicalNumbers(b)
    ensures a == b || Less(a, b) || Less(b, a)
  {
    UnorderedExactly(a, b);
    if Unordered(a, b) {
      var i: nat :| Agree(a.prerelease, b.prerelease, i) && i < |a.prerelease| && i < |b.prerelease|
                    && Tied(a.prerelease[i], b.prerelease[i]);
      SwiftIntOfCanonical(a.prerelease[i]);
      SwiftIntOfCanonical(b.prerelease[i]);
      CanonicalIsInjective(a.prerelease[i], b.prerelease[i]);
    }
  }

  lemma ValueOfDigit(s: string)
    requires |s| == 1 && IsDigit(s[0])
    ensures AllDigits(s) && Value(s) == s[0] as int - '0' as int
  {
    assert s[..0] == [];
  }

  lemma ValueOfTwoDigits(s: string)
    requires |s| == 2 && IsDigit(s[0]) && IsDigit(s[1])
    ensures AllDigits(s) && Value(s) == 10 * (s[0] as int - '0' as int) + (s[1] as int - '0' as int)
  {
    assert s[..1] == [s[0]];
    ValueOfDigit(s[..1]);
  }

  function Pre(prerelease: seq<string>): ReleaseVersion {
    ReleaseVersion([1, 0, 0], prerelease)
  }

  lemma SevenAndNine()
    ensures Unordered(Pre(["1", "7"]), Pre(["01", "9"]))
  {
    ValueOfTwoDigits("01");
    ValueOfDigit("1");
    assert Agree(["1", "7"], ["01", "9"], 0) && Tied("1", "01");
    assert FirstDifferenceIsTied(["1", "7"], ["01", "9"]);
    UnorderedExactly(Pre(["1", "7"]), Pre(["01", "9"]));
  }

  lemma ZeroAndMinusZero()
    ensures Unordered(Pre(["-0"]), Pre(["0"]))
  {
    ValueOfDigit("0");
    assert "-0"[1..] == "0";
    assert Agree(["-0"], ["0"], 0) && Tied("-0", "0");
    assert FirstDifferenceIsTied(["-0"], ["0"]);
    UnorderedExactly(Pre(["-0"]), Pre(["0"]));
  }

  lemma FiveAndSeven()
    ensures Unordered(Pre(["01", "5"]), Pre(["1", "7"]))
  {
    ValueOfTwoDigits("01");
    ValueOfDigit("1");
    assert Agree(["01", "5"], ["1", "7"], 0) && Tied("01", "1");
    assert FirstDifferenceIsTied(["01", "5"], ["1", "7"]);
    UnorderedExactly(Pre(["01", "5"]), Pre(["1", "7"]));
  }

  /** Being unordered does not carry over from pair to pair: 1.0.0-01.5 and 1.0.0-01.9 are
      both unordered against 1.0.0-1.7, yet the first is below the second. */
  lemma UnorderedIsNotTransitive()
    ensures Unordered(Pre(["01", "5"]), Pre(["1", "7"])) && Unordered(Pre(["1", "7"]), Pre(["01", "9"]))
    ensures Less(Pre(["01", "5"]), Pre(["01", "9"])) && Unordered(Pre(["-0"]), Pre(["0"]))
  {
    ZeroAndMinusZero();
    SevenAndNine();
    FiveAndSeven();
    ValueOfDigit("5");
    ValueOfDigit("9");
    assert ["01", "5"][1..] == ["5"] && ["01", "9"][1..] == ["9"];
  }

  // ---------------------------------------------------------------- Semantic Versioning 2.0.0, section 11

  predicate IdentifierChar(c: char) {
    IsDigit(c) || 'a' <= c <= 'z' || 'A' <= c <= 'Z' || c == '-'
  }

  /** Section 9: nonempty, [0-9A-Za-z-], and numeric identifiers carry no leading zero. */
  predicate SemVerIdentifier(s: string) {
    s != [] && (forall i :: 0 <= i < |s| ==> IdentifierChar(s[i])) && (AllDigits(s) ==> Canonical(s))
  }

  predicate SemVer(v: ReleaseVersion) {
    |v.core| == 3 && (forall i :: 0 <= i < 3 ==> v.core[i] >= 0)
    && forall i :: 0 <= i < |v.prerelease| ==> SemVerIdentifier(v.prerelease[i])
  }

  /** Section 11.4.1 to 11.4.3; other identifiers compare in ASCII sort order. */
  ghost predicate IdentifierBelow(x: string, y: string) {
    if AllDigits(x) && AllDigits(y) then Value(x) < Value(y)
    else if AllDigits(x) || AllDigits(y) then AllDigits(x)
    else Precedes(x, y, (c, d) => c < d)
  }

  /** Section 11.4 and 11.4.4. */
  ghost predicate PrereleaseBelow(a: seq<string>, b: seq<string>) {
    Precedes(a, b, (x, y) => IdentifierBelow(x, y))
  }

  /** Sections 11.2 and 11.3. */
  ghost predicate Below(a: ReleaseVersion, b: ReleaseVersion) {
    || Precedes(a.core, b.core, (m, n) => m < n)
    || (a.core == b.core && a.prerelease != [] && b.prerelease == [])
    || (a.core == b.core && a.prerelease != [] && b.prerelease != [] && PrereleaseBelow(a.prerelease, b.prerelease))
  }

  /** `Int` reads the identifier exactly when the standard calls it numeric. */
  predicate Conforming(id: string) {
    SwiftInt(id).Some? <==> AllDigits(id)
  }

  lemma {:induction false} StringLessIsAscii(a: string, b: string)
    ensures StringLess(a, b) <==> Precedes(a, b, (c, d) => c < d)
  {
    PrecedesUnfolds(a, b, (c, d) => c < d);
    if a != [] && b != [] {
      StringLessIsAscii(a[1..], b[1..]);
    }
  }

  lemma IdentifierAgreement(x: string, y: string)
    requires x != [] && y != [] && Conforming(x) && Conforming(y)
    ensures IdentifierLess(x, y) <==> IdentifierBelow(x, y)
  {
    StringLessIsAscii(x, y);
  }

  lemma {:induction false} PrereleaseAgreement(a: seq<string>, b: seq<string>)
    requires forall i :: 0 <= i < |a| ==> a[i] != [] && Conforming(a[i])
    requires forall i :: 0 <= i < |b| ==> b[i] != [] && Conforming(b[i])
    ensures PrereleaseLess(a, b) <==> PrereleaseBelow(a, b)
  {
    PrecedesUnfolds(a, b, (x, y) => IdentifierBelow(x, y));
    if a != [] && b != [] {
      IdentifierAgreement(a[0], b[0]);
      PrereleaseAgreement(a[1..], b[1..]);
    }
  }

  lemma {:induction false} CoreAgreement(a: seq<int>, b: seq<int>)
    ensures CoreLess(a, b) <==> Precedes(a, b, (m, n) => m < n)
  {
    PrecedesUnfolds(a, b, (m, n) => m < n);
    if a != [] && b != [] {
      CoreAgreement(a[1..], b[1..]);
    }
  }

  predicate AllConforming(v: ReleaseVersion) {
    forall i :: 0 <= i < |v.prerelease| ==> Conforming(v.prerelease[i])
  }

  lemma Agreement(a: ReleaseVersion, b: ReleaseVersion)
    requires SemVer(a) && SemVer(b) && AllConforming(a) && AllConforming(b)
    ensures Less(a, b) <==> Below(a, b)
  {
    CoreAgreement(a.core, b.core);
    CoreLessIsTotalOrder(a.core, b.core, b.core);
    PrereleaseAgreement(a.prerelease, b.prerelease);
  }

  /** A nonconforming identifier disagrees with the standard against `-` or `0`. */
  lemma Disagreement(id: string) returns (other: string)
    requires SemVerIdentifier(id) && !Conforming(id)
    ensures other in ["-", "0"] && SemVerIdentifier(other) && Conforming(other) && other != id
    ensures IdentifierLess(id, other) != IdentifierBelow(id, other)
            || IdentifierLess(other, id) != IdentifierBelow(other, id)
  {
    if AllDigits(id) {
      other := "-";
      assert IsDigit(id[0]);
      assert !AllDigits(other) by { assert !IsDigit(other[0]); }
      assert SwiftInt(other).None?;
    } else {
      other := "0";
      ValueOfDigit(other);
      assert Canonical(other);
      assert id[0] == '-' by {
        assert IdentifierChar(id[0]);
      }
      assert SwiftInt(id).value <= 0;
    }
  }

  lemma FirstNonconforming(v: ReleaseVersion) returns (i: nat)
    requires !AllConforming(v)
    ensures i < |v.prerelease| && !Conforming(v.prerelease[i])
    ensures forall j :: 0 <= j < i ==> Conforming(v.prerelease[j])
  {
    i := FirstFailing(v.prerelease, Conforming);
  }

  lemma FirstFailing<T>(items: seq<T>, p: T -> bool) returns (i: nat)
    requires exists j :: 0 <= j < |items| && !p(items[j])
    ensures i < |items| && !p(items[i]) && forall j :: 0 <= j < i ==> p(items[j])
  {
    i := 0;
    while p(items[i])
      invariant i < |items| && forall j :: 0 <= j < i ==> p(items[j])
      invariant exists j :: i <= j < |items| && !p(items[j])
      decreases |items| - i
    {
      i := i + 1;
    }
  }

  lemma {:induction false} DecidedAt(front: seq<string>, x: string, xs: seq<string>, y: string)
    requires x != y
    ensures PrereleaseLess(front + [x] + xs, front + [y]) == IdentifierLess(x, y)
    ensures PrereleaseLess(front + [y], front + [x] + xs) == IdentifierLess(y, x)
    ensures PrereleaseBelow(front + [x] + xs, front + [y]) == IdentifierBelow(x, y)
    ensures PrereleaseBelow(front + [y], front + [x] + xs) == IdentifierBelow(y, x)
  {
    var a, b := front + [x] + xs, front + [y];
    PrecedesUnfolds(a, b, (s, t) => IdentifierBelow(s, t));
    PrecedesUnfolds(b, a, (s, t) => IdentifierBelow(s, t));
    if front == [] {
      assert a == [x] + xs && b == [y];
    } else {
      DecidedAt(front[1..], x, xs, y);
      assert a[1..] == front[1..] + [x] + xs && b[1..] == front[1..] + [y];
    }
  }

  lemma EqualCoresDoNotPrecede(core: seq<int>)
    ensures !CoreLess(core, core) && !Precedes(core, core, (m, n) => m < n)
  {
    CoreLessIsTotalOrder(core, core, core);
    CoreAgreement(core, core);
  }

  /** `<` ranks a version as section 11 does, against every conforming version, exactly when
      `Int` reads each identifier the standard calls numeric (it must fit in 64 bits) and no
      other (`-5` is alphanumeric to the standard and a negative integer to `Int`). */
  lemma AgreesExactly(v: ReleaseVersion)
    requires SemVer(v)
    ensures AllConforming(v)
            <==> forall w: ReleaseVersion | SemVer(w) && AllConforming(w) ::
                   (Less(v, w) <==> Below(v, w)) && (Less(w, v) <==> Below(w, v))
  {
    if AllConforming(v) {
      forall w: ReleaseVersion | SemVer(w) && AllConforming(w)
        ensures (Less(v, w) <==> Below(v, w)) && (Less(w, v) <==> Below(w, v))
      {
        Agreement(v, w);
        Agreement(w, v);
      }
    } else {
      var w := NonconformingDisagrees(v);
    }
  }

  lemma NonconformingDisagrees(v: ReleaseVersion) returns (w: ReleaseVersion)
    requires SemVer(v) && !AllConforming(v)
    ensures SemVer(w) && AllConforming(w)
    ensures !((Less(v, w) <==> Below(v, w)) && (Less(w, v) <==> Below(w, v)))
  {
    var i := FirstNonconforming(v);
    var other := Disagreement(v.prerelease[i]);
    w := ReleaseVersion(v.core, v.prerelease[..i] + [other]);
    assert v.prerelease == v.prerelease[..i] + [v.prerelease[i]] + v.prerelease[i + 1..];
    DecidedAt(v.prerelease[..i], v.prerelease[i], v.prerelease[i + 1..], other);
    SamePrereleaseCore(v, w);
    SamePrereleaseCore(w, v);
  }

  /** Prereleases of one release compare by their identifiers. */
  lemma SamePrereleaseCore(a: ReleaseVersion, b: ReleaseVersion)
    requires a.core == b.core && a.prerelease != [] && b.prerelease != []
    ensures Less(a, b) <==> PrereleaseLess(a.prerelease, b.prerelease)
    ensures Below(a, b) <==> PrereleaseBelow(a.prerelease, b.prerelease)
  {
    EqualCoresDoNotPrecede(a.core);
  }

  /** 1.0.0--5 comes before 1.0.0-1 for the comparator and after it for the standard. */
  lemma NegativeNumberDisagrees()
    ensures SemVer(Pre(["-5"])) && SemVer(Pre(["1"])) && AllConforming(Pre(["1"])) && !AllConforming(Pre(["-5"]))
    ensures Less(Pre(["-5"]), Pre(["1"])) && !Below(Pre(["-5"]), Pre(["1"]))
    ensures Below(Pre(["1"]), Pre(["-5"])) && !Less(Pre(["1"]), Pre(["-5"]))
  {
    ValueOfDigit("5");
    ValueOfDigit("1");
    assert "-5"[1..] == "5" && !IsDigit("-5"[0]);
    OneIdentifier("-5", "1");
    assert !Conforming(Pre(["-5"]).prerelease[0]);
  }

  /** Versions of one identifier each compare as these do. */
  lemma OneIdentifier(x: string, y: string)
    requires x != y
    ensures (Less(Pre([x]), Pre([y])) <==> IdentifierLess(x, y)) && (Less(Pre([y]), Pre([x])) <==> IdentifierLess(y, x))
    ensures (Below(Pre([x]), Pre([y])) <==> IdentifierBelow(x, y)) && (Below(Pre([y]), Pre([x])) <==> IdentifierBelow(y, x))
  {
    assert [] + [x] + [] == [x] && [] + [y] == [y];
    DecidedAt([], x, [], y);
    SamePrereleaseCore(Pre([x]), Pre([y]));
    SamePrereleaseCore(Pre([y]), Pre([x]));
  }

  // ---------------------------------------------------------------- parsing

  predicate WellFormed(v: ReleaseVersion) {
    |v.core| == 3 && (forall i :: 0 <= i < 3 ==> 0 <= v.core[i] <= INT_MAX)
    && forall i :: 0 <= i < |v.prerelease| ==>
         v.prerelease[i] != [] && '.' !in v.prerelease[i] && '+' !in v.prerelease[i]
  }

  function Render(v: ReleaseVersion, build: Option<string>): string
    requires WellFormed(v)
  {
    Join([Digits(v.core[0]), Digits(v.core[1]), Digits(v.core[2])], '.')
    + (if v.prerelease == [] then "" else "-" + Join(v.prerelease, '.'))
    + (if build.None? then "" else "+" + build.value)
  }

  lemma {:induction false} SplitPiecesComeFromText(s: string, separator: char)
    ensures forall i, c :: 0 <= i < |Split(s, separator)| && c in Split(s, separator)[i] ==> c in s
  {
    if s != [] {
      var rest := Split(s[1..], separator);
      SplitPiecesComeFromText(s[1..], separator);
      assert s == [s[0]] + s[1..];
      forall i, c | 0 <= i < |Split(s, separator)| && c in Split(s, separator)[i] ensures c in s {
        if s[0] == separator {
          assert i > 0 && Split(s, separator)[i] == rest[i - 1];
        } else if i > 0 {
          assert Split(s, separator)[i] == rest[i];
        } else {
          assert c == s[0] || c in rest[0];
        }
      }
    }
  }

  lemma {:induction false} SplitPrefix(front: string, rest: string, separator: char)
    requires separator !in front
    ensures Split(front + [separator] + rest, separator) == [front] + Split(rest, separator)
    ensures Split(front, separator) == [front]
  {
    var s := front + [separator] + rest;
    if front == [] {
      assert s[1..] == rest;
    } else {
      SplitPrefix(front[1..], rest, separator);
      assert front[0] in front && s[0] == front[0];
      assert s[1..] == front[1..] + [separator] + rest;
      assert front == [front[0]] + front[1..];
    }
  }

  lemma {:induction false} SplitJoin(pieces: seq<string>, separator: char)
    requires |pieces| > 0 && forall i :: 0 <= i < |pieces| ==> separator !in pieces[i]
    ensures Split(Join(pieces, separator), separator) == pieces
  {
    if |pieces| == 1 {
      SplitPrefix(pieces[0], [], separator);
    } else {
      SplitJoin(pieces[1..], separator);
      SplitPrefix(pieces[0], Join(pieces[1..], separator), separator);
    }
  }

  lemma {:induction false} BeforePrefix(front: string, rest: string, separator: char)
    requires separator !in front && (rest == [] || rest[0] == separator)
    ensures Before(front + rest, separator) == front
  {
    if front != [] {
      BeforePrefix(front[1..], rest, separator);
      assert (front + rest)[1..] == front[1..] + rest;
    } else {
      assert front + rest == rest;
    }
  }

  lemma {:induction false} JoinLacks(pieces: seq<string>, separator: char, c: char)
    requires |pieces| > 0 && c != separator && forall i :: 0 <= i < |pieces| ==> c !in pieces[i]
    ensures c !in Join(pieces, separator)
  {
    if |pieces| > 1 {
      JoinLacks(pieces[1..], separator, c);
    }
  }

  lemma DigitsLackMarks(n: nat)
    ensures '.' !in Digits(n) && '-' !in Digits(n) && '+' !in Digits(n) && |Digits(n)| > 0
    ensures n <= INT_MAX ==> SwiftInt(Digits(n)) == Some(n)
  {
    DigitsAreCanonical(n);
    SwiftIntOfCanonical(Digits(n));
  }

  function CoreFields(v: ReleaseVersion): seq<string>
    requires WellFormed(v)
  {
    [Digits(v.core[0]), Digits(v.core[1]), Digits(v.core[2])]
  }

  lemma CoreFieldsAreClean(v: ReleaseVersion)
    requires WellFormed(v)
    ensures var fields := CoreFields(v);
            forall i :: 0 <= i < 3 ==> '.' !in fields[i] && '-' !in fields[i] && '+' !in fields[i]
                                       && |fields[i]| > 0 && SwiftInt(fields[i]) == Some(v.core[i])
  {
    DigitsLackMarks(v.core[0]);
    DigitsLackMarks(v.core[1]);
    DigitsLackMarks(v.core[2]);
  }

  lemma BaseOf(front: string, tail: string)
    requires front != [] && '+' !in front && (tail == [] || tail[0] == '+')
    ensures Base(front + tail) == front
  {
    BeforePrefix(front, tail, '+');
    assert front[0] in front;
  }

  lemma ParseParts(base: string, fields: seq<string>, core: seq<int>, prerelease: seq<string>)
    requires |fields| == 3 && |core| == 3 && [] !in prerelease
    requires forall i :: 0 <= i < 3 ==> '.' !in fields[i] && '-' !in fields[i] && SwiftInt(fields[i]) == Some(core[i])
    requires forall i :: 0 <= i < |prerelease| ==> '.' !in prerelease[i]
    requires base == Join(fields, '.') + if prerelease == [] then "" else "-" + Join(prerelease, '.')
    ensures ParseBase(base) == Some(ReleaseVersion(core, prerelease))
  {
    var front := Join(fields, '.');
    FrontOf(fields, if prerelease == [] then "" else "-" + Join(prerelease, '.'));
    if prerelease != [] {
      assert base[|front| + 1..] == Join(prerelease, '.');
      SplitJoin(prerelease, '.');
    }
    ParseFields(base, front, fields, core, prerelease);
  }

  lemma ParseFields(base: string, front: string, fields: seq<string>, core: seq<int>, prerelease: seq<string>)
    requires Before(base, '-') == front && Split(front, '.') == fields
    requires |fields| == 3 && |core| == 3 && forall i :: 0 <= i < 3 ==> SwiftInt(fields[i]) == Some(core[i])
    requires [] !in prerelease && prerelease == if |front| == |base| then [] else Split(base[|front| + 1..], '.')
    ensures ParseBase(base) == Some(ReleaseVersion(core, prerelease))
  {
    assert seq(3, i requires 0 <= i < 3 => SwiftInt(fields[i]).value) == core;
  }

  lemma FrontOf(fields: seq<string>, rest: string)
    requires fields != [] && (rest == [] || rest[0] == '-')
    requires forall i :: 0 <= i < |fields| ==> '.' !in fields[i] && '-' !in fields[i]
    ensures var front := Join(fields, '.'); Before(front + rest, '-') == front && Split(front, '.') == fields
  {
    JoinLacks(fields, '.', '-');
    SplitJoin(fields, '.');
    BeforePrefix(Join(fields, '.'), rest, '-');
  }

  /** Reading back a rendered version yields it, whatever build metadata follows. */
  lemma ParseRender(v: ReleaseVersion, build: Option<string>)
    requires WellFormed(v)
    ensures Parse(Render(v, build)) == Some(v)
  {
    var fields := CoreFields(v);
    CoreFieldsAreClean(v);
    JoinLacks(fields, '.', '+');
    var pre := if v.prerelease == [] then "" else "-" + Join(v.prerelease, '.');
    if v.prerelease != [] {
      JoinLacks(v.prerelease, '.', '+');
    }
    var tail := if build.None? then "" else "+" + build.value;
    BaseOf(Join(fields, '.') + pre, tail);
    assert Render(v, build) == Join(fields, '.') + pre + tail;
    ParseParts(Base(Render(v, build)), fields, v.core, v.prerelease);
  }

  lemma {:induction false} SkipLeadingLeavesNone(s: string, c: char)
    ensures var t := SkipLeading(s, c); t != [] ==> t[0] != c
    ensures SkipLeading(s, c) == [] ==> forall d :: d in s ==> d == c
  {
    if s != [] && s[0] == c {
      SkipLeadingLeavesNone(s[1..], c);
      assert s == [s[0]] + s[1..];
    }
  }

  lemma SwiftIntWithoutSign(s: string)
    requires '-' !in s && '+' !in s && SwiftInt(s).Some?
    ensures 0 <= SwiftInt(s).value <= INT_MAX
  {
    assert s[0] != '-' && s[0] != '+';
  }

  lemma ParsedIsWellFormed(text: string)
    requires Parse(text).Some?
    ensures WellFormed(Parse(text).value)
  {
    SkipLeadingLeavesNone(text, '+');
    var base := Base(text);
    var front := Before(base, '-');
    var fields := Split(front, '.');
    SplitPiecesComeFromText(front, '.');
    if SkipLeading(text, '+') == [] {
      assert forall c :: c in front ==> c in text;
      SplitPrefix(front, [], '.');
      assert false;
    } else {
      assert '-' !in front && '+' !in base && front <= base;
      forall i | 0 <= i < 3 ensures 0 <= SwiftInt(fields[i]).value <= INT_MAX {
        assert forall c :: c in fields[i] ==> c in front;
        assert forall c :: c in front ==> c in base;
        SwiftIntWithoutSign(fields[i]);
      }
      if |front| < |base| {
        var rest := base[|front| + 1..];
        SplitPiecesComeFromText(rest, '.');
        assert forall c :: c in rest ==> c in base;
      }
    }
  }

  /** The versions that `init` can produce: three integers from 0 to 2^63-1 and nonempty
      identifiers free of dots and plus signs. */
  lemma ParseImage(v: ReleaseVersion)
    ensures WellFormed(v) <==> exists text :: Parse(text) == Some(v)
  {
    if WellFormed(v) {
      ParseRender(v, None);
    }
    forall text | Parse(text) == Some(v) ensures WellFormed(v) {
      ParsedIsWellFormed(text);
    }
  }

  // ---------------------------------------------------------------- the update feed

  datatype Release = Release(tagName: string, htmlUrl: string, draft: bool, assets: seq<string>)
  datatype UpdateRelease = UpdateRelease(version: string, page: string)
  datatype UpdateCheck = UnknownCurrent | Checked(offer: Option<UpdateRelease>)

  const REPOSITORY := "majiayu000/rekey"
  const LEGACY_TAGS := {"v2.0.0-alpha.1", "v2.0.0-alpha.2", "v3.0.0-alpha.1",
                        "v3.0.0-alpha.2", "v3.0.0-alpha.3", "v3.0.0-alpha.4"}

  predicate Considered(release: Release) {
    !release.draft && release.tagName !in LEGACY_TAGS
    && release.tagName != [] && release.tagName[0] == 'v' && Parse(release.tagName[1..]).Some?
  }

  function Version(release: Release): ReleaseVersion
    requires Considered(release)
  {
    Parse(release.tagName[1..]).value
  }

  predicate Eligible(release: Release, installed: ReleaseVersion) {
    && Considered(release)
    && Less(installed, Version(release))
    && release.htmlUrl == "https://github.com/" + REPOSITORY + "/releases/tag/" + release.tagName
    && "rekey-" + release.tagName + "-macos.pkg" in release.assets
  }

  function Candidate(release: Release, installed: ReleaseVersion): Option<ReleaseVersion> {
    if Eligible(release, installed) then Some(Version(release)) else None
  }

  function Candidates(releases: seq<Release>, installed: ReleaseVersion): (versions: seq<Option<ReleaseVersion>>)
    ensures |versions| == |releases|
  {
    seq(|releases|, i requires 0 <= i < |releases| => Candidate(releases[i], installed))
  }

  /** Entry `k` is a candidate that no candidate strictly exceeds. */
  predicate Unexceeded(versions: seq<Option<ReleaseVersion>>, k: nat) {
    k < |versions| && versions[k].Some?
    && forall j :: 0 <= j < |versions| && versions[j].Some? ==> !Less(versions[k].value, versions[j].value)
  }

  /** One turn of the loop: transitivity alone keeps the running choice unexceeded. */
  lemma ExtendChoice(versions: seq<Option<ReleaseVersion>>, next: ReleaseVersion, k: nat)
    requires Unexceeded(versions, k)
    ensures Unexceeded(versions + [Some(next)], if Less(versions[k].value, next) then |versions| else k)
  {
    LessIsStrictOrder(next, next, next);
    forall j | 0 <= j < |versions| && versions[j].Some? && Less(versions[k].value, next)
      ensures !Less(next, versions[j].value)
    {
      LessIsStrictOrder(versions[k].value, next, versions[j].value);
    }
  }

  /** The candidate that `newest` holds after the first `n` entries: it lets go of one only for a
      greater one. */
  function Choice(versions: seq<Option<ReleaseVersion>>, n: nat): (k: Option<nat>)
    requires n <= |versions|
    ensures k.Some? ==> Unexceeded(versions[..n], k.value)
    ensures k.None? ==> forall j :: 0 <= j < n ==> versions[j].None?
  {
    if n == 0 then None
    else
      var held := Choice(versions, n - 1);
      assert versions[..n] == versions[..n - 1] + [versions[n - 1]];
      if versions[n - 1].None? then held
      else if held.None? then
        LessIsStrictOrder(versions[n - 1].value, versions[n - 1].value, versions[n - 1].value);
        Some(n - 1)
      else
        ExtendChoice(versions[..n - 1], versions[n - 1].value, held.value);
        if Less(versions[held.value].value, versions[n - 1].value) then Some(n - 1) else held
  }

  /** The first candidate is chosen if nothing exceeds it. */
  lemma {:induction false} FirstIsChosen(versions: seq<Option<ReleaseVersion>>, k: nat, n: nat)
    requires Unexceeded(versions, k) && k < n <= |versions| && forall j :: 0 <= j < k ==> versions[j].None?
    ensures Choice(versions, n) == Some(k)
  {
    if k < n - 1 {
      FirstIsChosen(versions, k, n - 1);
    }
  }

  function OfferOf(release: Release): UpdateRelease
    requires release.tagName != []
  {
    UpdateRelease(release.tagName[1..], release.htmlUrl)
  }

  function Offered(releases: seq<Release>, installed: ReleaseVersion): Option<UpdateRelease> {
    var versions := Candidates(releases, installed);
    var k := Choice(versions, |versions|);
    if k.None? then None else Some(OfferOf(releases[k.value]))
  }

  /** The loop of `newest`, over the releases and what their guards let through. */
  method Select(releases: seq<Release>, versions: seq<Option<ReleaseVersion>>) returns (offer: Option<UpdateRelease>)
    requires |versions| == |releases|
    requires forall i :: 0 <= i < |releases| && versions[i].Some? ==> releases[i].tagName != []
    ensures var k := Choice(versions, |versions|); offer == if k.None? then None else Some(OfferOf(releases[k.value]))
  {
    var best: Option<(ReleaseVersion, UpdateRelease)> := None;
    for i := 0 to |releases|
      invariant var k := Choice(versions, i);
                best == if k.None? then None else Some((versions[k.value].value, OfferOf(releases[k.value])))
    {
      if versions[i].Some? {
        var version := versions[i].value;
        if best.None? || Less(best.value.0, version) {
          best := Some((version, OfferOf(releases[i])));
        }
      }
    }
    offer := if best.None? then None else Some(best.value.1);
  }

  /** A release that may be offered, and that none of them exceeds. */
  predicate Best(releases: seq<Release>, installed: ReleaseVersion, r: Release) {
    && r in releases && Eligible(r, installed)
    && forall s :: s in releases && Eligible(s, installed) ==> !Less(Version(r), Version(s))
  }

  /** The offer is that of a best release; there is none only if no release is eligible. */
  ghost predicate IsOffer(releases: seq<Release>, installed: ReleaseVersion, offer: Option<UpdateRelease>) {
    match offer
    case None => forall r :: r in releases ==> !Eligible(r, installed)
    case Some(update) => exists r :: Best(releases, installed, r) && update == OfferOf(r)
  }

  lemma OfferedIsOffer(releases: seq<Release>, installed: ReleaseVersion)
    ensures IsOffer(releases, installed, Offered(releases, installed))
  {
    var versions := Candidates(releases, installed);
    var k := Choice(versions, |versions|);
    assert versions[..|versions|] == versions;
    forall r | r in releases && Eligible(r, installed)
      ensures k.Some? && !Less(versions[k.value].value, Version(r))
    {
      var i :| 0 <= i < |releases| && releases[i] == r;
      assert versions[i] == Some(Version(r));
    }
    if k.Some? {
      assert Best(releases, installed, releases[k.value]);
    }
  }

  /** `newest`. */
  method Newest(releases: seq<Release>, current: string) returns (check: UpdateCheck)
    ensures match Parse(current)
            case None => check == UnknownCurrent
            case Some(installed) =>
              check == Checked(Offered(releases, installed)) && IsOffer(releases, installed, check.offer)
  {
    var parsed := Parse(current);
    if parsed.None? {
      return UnknownCurrent;
    }
    OfferedIsOffer(releases, parsed.value);
    var offer := Select(releases, Candidates(releases, parsed.value));
    return Checked(offer);
  }

  // ---------------------------------------------------------------- the order of the feed

  /** When the numbers in the feed are canonical, no release has a greater version than the one
      offered, in whatever order they come. */
  lemma OfferIsGreatest(releases: seq<Release>, installed: ReleaseVersion) returns (best: Release)
    requires forall r :: r in releases && Eligible(r, installed) ==> CanonicalNumbers(Version(r))
    requires exists r :: r in releases && Eligible(r, installed)
    ensures best in releases && Eligible(best, installed) && Offered(releases, installed) == Some(OfferOf(best))
    ensures forall r :: r in releases && Eligible(r, installed) ==> Version(r) == Version(best) || Less(Version(r), Version(best))
  {
    OfferedIsOffer(releases, installed);
    best :| Best(releases, installed, best) && Offered(releases, installed) == Some(OfferOf(best));
    forall r | r in releases && Eligible(r, installed) ensures Version(r) == Version(best) || Less(Version(r), Version(best)) {
      Trichotomy(Version(r), Version(best));
    }
  }

  lemma BestIsUnexceeded(releases: seq<Release>, installed: ReleaseVersion, k: nat)
    requires k < |releases| && Best(releases, installed, releases[k])
    ensures Unexceeded(Candidates(releases, installed), k)
  {
    var versions := Candidates(releases, installed);
    forall j | 0 <= j < |versions| && versions[j].Some? ensures !Less(versions[k].value, versions[j].value) {
      assert releases[j] in releases && versions[j] == Some(Version(releases[j]));
    }
  }

  /** A best release that comes first is offered. */
  lemma FirstIsOffered(releases: seq<Release>, installed: ReleaseVersion)
    requires releases != [] && Best(releases, installed, releases[0])
    ensures Offered(releases, installed) == Some(OfferOf(releases[0]))
  {
    BestIsUnexceeded(releases, installed, 0);
    FirstIsChosen(Candidates(releases, installed), 0, |releases|);
  }

  lemma ToFront(releases: seq<Release>, i: nat) returns (moved: seq<Release>)
    requires i < |releases|
    ensures multiset(moved) == multiset(releases) && moved != [] && moved[0] == releases[i]
  {
    moved := [releases[i]] + releases[..i] + releases[i + 1..];
    assert releases == releases[..i] + [releases[i]] + releases[i + 1..];
  }

  /** Some order of the feed offers a given best release. */
  lemma MovedToFront(releases: seq<Release>, installed: ReleaseVersion, r: Release) returns (moved: seq<Release>)
    requires Best(releases, installed, r)
    ensures multiset(moved) == multiset(releases) && Offered(moved, installed) == Some(OfferOf(r))
  {
    var i :| 0 <= i < |releases| && releases[i] == r;
    moved := ToFront(releases, i);
    SameMembers(releases, moved);
    BestStays(releases, moved, installed, r);
    FirstIsOffered(moved, installed);
  }

  lemma SameMembers(releases: seq<Release>, others: seq<Release>)
    requires multiset(releases) == multiset(others)
    ensures forall r :: r in releases <==> r in others
  {
    forall r ensures r in releases <==> r in others {
      assert r in releases <==> r in multiset(releases);
      assert r in others <==> r in multiset(others);
    }
  }

  lemma BestStays(releases: seq<Release>, others: seq<Release>, installed: ReleaseVersion, r: Release)
    requires (forall s :: s in releases <==> s in others) && Best(releases, installed, r)
    ensures Best(others, installed, r)
  {
  }

  ghost predicate OrderIndependent(releases: seq<Release>, installed: ReleaseVersion) {
    forall others :: multiset(others) == multiset(releases) ==> Offered(others, installed) == Offered(releases, installed)
  }

  /** The order of the feed does not matter exactly when all best releases have the same tag. */
  lemma OrderIndependentExactly(releases: seq<Release>, installed: ReleaseVersion)
    ensures OrderIndependent(releases, installed)
            <==> forall r, s :: Best(releases, installed, r) && Best(releases, installed, s) ==> r.tagName == s.tagName
  {
    if OrderIndependent(releases, installed) {
      forall r, s | Best(releases, installed, r) && Best(releases, installed, s) ensures r.tagName == s.tagName {
        var first := MovedToFront(releases, installed, r);
        var second := MovedToFront(releases, installed, s);
        SameTag(r, s, installed);
      }
    } else {
      var others :| multiset(others) == multiset(releases) && Offered(others, installed) != Offered(releases, installed);
      SameMembers(releases, others);
      OfferedIsOffer(releases, installed);
      OfferedIsOffer(others, installed);
      forall r | Best(others, installed, r) ensures Best(releases, installed, r) {
        BestStays(others, releases, installed, r);
      }
    }
  }

  /** An eligible release's offer names its tag, and its tag its offer. */
  lemma SameTag(r: Release, s: Release, installed: ReleaseVersion)
    requires Eligible(r, installed) && Eligible(s, installed)
    ensures OfferOf(r) == OfferOf(s) <==> r.tagName == s.tagName
  {
    assert r.tagName == ['v'] + r.tagName[1..] && s.tagName == ['v'] + s.tagName[1..];
  }

  /** The release of a version of this repository. */
  function ReleaseOf(v: ReleaseVersion): Release
    requires WellFormed(v)
  {
    var tag := "v" + Render(v, None);
    Release(tag, "https://github.com/" + REPOSITORY + "/releases/tag/" + tag, false, ["rekey-" + tag + "-macos.pkg"])
  }

  lemma NotLegacy(tag: string)
    requires |tag| > 1 && tag[1] == '1'
    ensures tag !in LEGACY_TAGS
  {
    assert forall legacy :: legacy in LEGACY_TAGS ==> legacy[1] == '2' || legacy[1] == '3';
  }

  lemma TagBegins(v: ReleaseVersion)
    requires WellFormed(v) && v.core[0] == 1
    ensures |Render(v, None)| > 0 && Render(v, None)[0] == '1'
  {
    assert Digits(1) == "1";
  }

  lemma TagIsConsidered(r: Release, text: string)
    requires !r.draft && r.tagName == "v" + text && text != [] && text[0] == '1' && Parse(text).Some?
    ensures Considered(r) && Version(r) == Parse(text).value
  {
    assert r.tagName[1..] == text && r.tagName[1] == text[0];
    NotLegacy(r.tagName);
  }

  lemma ReleaseIsEligible(v: ReleaseVersion, installed: ReleaseVersion)
    requires WellFormed(v) && v.core[0] == 1 && Less(installed, v)
    ensures Eligible(ReleaseOf(v), installed) && Version(ReleaseOf(v)) == v
  {
    ParseRender(v, None);
    TagBegins(v);
    TagIsConsidered(ReleaseOf(v), Render(v, None));
  }

  lemma FirstOfTwo(r: Release, s: Release, installed: ReleaseVersion)
    requires Eligible(r, installed) && Eligible(s, installed) && !Less(Version(r), Version(s))
    ensures Offered([r, s], installed) == Some(OfferOf(r))
  {
    LessIsStrictOrder(Version(r), Version(r), Version(r));
    assert Best([r, s], installed, r);
    FirstIsOffered([r, s], installed);
  }

  lemma JoinTwo(x: string, y: string)
    ensures Join([x, y], '.') == x + ['.'] + y
  {
    assert [x, y][1..] == [y];
  }

  lemma CoreText()
    ensures Join([Digits(1), Digits(0), Digits(0)], '.') == "1.0.0"
  {
    var rest := [Digits(0), Digits(0)];
    JoinTwo(Digits(0), Digits(0));
    assert [Digits(1), Digits(0), Digits(0)][1..] == rest;
    assert Digits(1) == "1" && Digits(0) == "0";
  }

  lemma TextOf(x: string, y: string)
    requires WellFormed(Pre([x, y]))
    ensures ReleaseOf(Pre([x, y])).tagName == "v1.0.0-" + x + "." + y
  {
    CoreText();
    JoinTwo(x, y);
    var pre := x + ['.'] + y;
    assert Render(Pre([x, y]), None) == "1.0.0" + ("-" + pre) + "";
  }

  lemma OneSeven()
    ensures ReleaseOf(Pre(["1", "7"])).tagName == "v1.0.0-1.7"
  {
    TextOf("1", "7");
  }

  lemma ZeroOneNine()
    ensures ReleaseOf(Pre(["01", "9"])).tagName == "v1.0.0-01.9"
  {
    TextOf("01", "9");
  }

  lemma UnorderedReleases(a: ReleaseVersion, b: ReleaseVersion, installed: ReleaseVersion)
    requires WellFormed(a) && WellFormed(b) && a.core[0] == b.core[0] == 1
    requires Less(installed, a) && Less(installed, b) && Unordered(a, b)
    ensures var r, s := ReleaseOf(a), ReleaseOf(b);
            Offered([r, s], installed) == Some(OfferOf(r)) && Offered([s, r], installed) == Some(OfferOf(s)) && OfferOf(r) != OfferOf(s)
  {
    ReleaseIsEligible(a, installed);
    ReleaseIsEligible(b, installed);
    FirstOfTwo(ReleaseOf(a), ReleaseOf(b), installed);
    FirstOfTwo(ReleaseOf(b), ReleaseOf(a), installed);
    SameTag(ReleaseOf(a), ReleaseOf(b), installed);
  }

  /** Two releases in two orders, of which the first is offered each time. */
  lemma OrderCanMatter(installed: ReleaseVersion) returns (r: Release, s: Release)
    requires installed.core == [0, 0, 0]
    ensures r.tagName == "v1.0.0-1.7" && s.tagName == "v1.0.0-01.9"
    ensures Offered([r, s], installed) == Some(OfferOf(r)) && Offered([s, r], installed) == Some(OfferOf(s)) && OfferOf(r) != OfferOf(s)
  {
    var a, b := Pre(["1", "7"]), Pre(["01", "9"]);
    SevenAndNine();
    OneSeven();
    ZeroOneNine();
    UnorderedReleases(a, b, installed);
    r, s := ReleaseOf(a), ReleaseOf(b);
  }

  lemma ThirdIsChosen(versions: seq<Option<ReleaseVersion>>)
    requires |versions| == 3 && forall i :: 0 <= i < 3 ==> versions[i].Some?
    requires !Less(versions[0].value, versions[1].value) && Less(versions[0].value, versions[2].value)
    ensures Choice(versions, 3) == Some(2)
  {
    assert Choice(versions, 1) == Some(0);
    assert Choice(versions, 2) == Some(0);
  }

  lemma ChosenIsOffered(releases: seq<Release>, installed: ReleaseVersion, k: nat)
    requires k < |releases| && releases[k].tagName != [] && Choice(Candidates(releases, installed), |releases|) == Some(k)
    ensures Offered(releases, installed) == Some(OfferOf(releases[k]))
  {
  }

  lemma CandidateIs(releases: seq<Release>, installed: ReleaseVersion, k: nat)
    requires k < |releases| && Eligible(releases[k], installed)
    ensures Candidates(releases, installed)[k] == Some(Version(releases[k]))
  {
  }

  lemma ThirdIsOffered(feed: seq<Release>, installed: ReleaseVersion)
    requires |feed| == 3 && forall i :: 0 <= i < 3 ==> Candidates(feed, installed)[i].Some?
    requires var versions := Candidates(feed, installed);
             !Less(versions[0].value, versions[1].value) && Less(versions[0].value, versions[2].value)
    requires feed[2].tagName != []
    ensures Offered(feed, installed) == Some(OfferOf(feed[2]))
  {
    ThirdIsChosen(Candidates(feed, installed));
    ChosenIsOffered(feed, installed, 2);
  }

  lemma ThreeOffers(r: Release, s: Release, t: Release, installed: ReleaseVersion)
    requires Eligible(r, installed) && Eligible(s, installed) && Eligible(t, installed)
    requires !Less(Version(r), Version(s)) && Less(Version(r), Version(t))
    ensures Offered([r, s, t], installed) == Some(OfferOf(t))
  {
    var feed := [r, s, t];
    CandidateIs(feed, installed, 0);
    CandidateIs(feed, installed, 1);
    CandidateIs(feed, installed, 2);
    ThirdIsOffered(feed, installed);
  }

  /** Nothing exceeds the second of three releases, but something the first; the third is offered. */
  ghost predicate PassesOver(r: Release, s: Release, t: Release, installed: ReleaseVersion) {
    && !Best([r, s, t], installed, r) && Best([r, s, t], installed, s)
    && t.tagName != [] && s.tagName != [] && Offered([r, s, t], installed) == Some(OfferOf(t)) && OfferOf(s) != OfferOf(t)
  }

  lemma SecondIsPassedOver(r: Release, s: Release, t: Release, installed: ReleaseVersion)
    requires Eligible(r, installed) && Eligible(s, installed) && Eligible(t, installed)
    requires Unordered(Version(r), Version(s)) && Unordered(Version(s), Version(t)) && Less(Version(r), Version(t))
    ensures PassesOver(r, s, t, installed)
  {
    OnlyFirstIsExceeded(r, s, t, installed);
    ThreeOffers(r, s, t, installed);
    SameTag(s, t, installed);
  }

  lemma OnlyFirstIsExceeded(r: Release, s: Release, t: Release, installed: ReleaseVersion)
    requires Eligible(r, installed) && Eligible(s, installed) && Eligible(t, installed)
    requires !Less(Version(s), Version(r)) && !Less(Version(s), Version(t)) && Less(Version(r), Version(t))
    ensures !Best([r, s, t], installed, r) && Best([r, s, t], installed, s)
  {
    var feed := [r, s, t];
    LessIsStrictOrder(Version(s), Version(s), Version(s));
    IsNotBest(feed, installed, 0, 2);
    IsBest(feed, installed, 1);
  }

  lemma PreIsEligible(x: string, y: string, installed: ReleaseVersion)
    requires installed.core == [0, 0, 0] && x != [] && y != []
    requires '.' !in x && '+' !in x && '.' !in y && '+' !in y
    ensures Eligible(ReleaseOf(Pre([x, y])), installed) && Version(ReleaseOf(Pre([x, y]))) == Pre([x, y])
  {
    assert Less(installed, Pre([x, y]));
    ReleaseIsEligible(Pre([x, y]), installed);
  }

  /** Nor is it the first best release that is offered: of 1.0.0-01.5, 1.0.0-1.7 and 1.0.0-01.9 in
      this order the second is the first that none exceeds, and the third is offered. */
  lemma FirstBestCanBePassedOver(installed: ReleaseVersion) returns (r: Release, s: Release, t: Release)
    requires installed.core == [0, 0, 0]
    ensures PassesOver(r, s, t, installed)
  {
    r, s, t := ReleaseOf(Pre(["01", "5"])), ReleaseOf(Pre(["1", "7"])), ReleaseOf(Pre(["01", "9"]));
    UnorderedIsNotTransitive();
    PreIsEligible("01", "5", installed);
    PreIsEligible("1", "7", installed);
    PreIsEligible("01", "9", installed);
    SecondIsPassedOver(r, s, t, installed);
  }

  lemma IsBest(releases: seq<Release>, installed: ReleaseVersion, k: nat)
    requires k < |releases| && Eligible(releases[k], installed)
    requires forall j :: 0 <= j < |releases| && Eligible(releases[j], installed) ==> !Less(Version(releases[k]), Version(releases[j]))
    ensures Best(releases, installed, releases[k])
  {
  }

  lemma IsNotBest(releases: seq<Release>, installed: ReleaseVersion, k: nat, j: nat)
    requires k < |releases| && Eligible(releases[k], installed)
    requires j < |releases| && Eligible(releases[j], installed) && Less(Version(releases[k]), Version(releases[j]))
    ensures !Best(releases, installed, releases[k])
  {
    assert releases[j] in releases;
  }
}
