/**
 * The order on concrete Jev releases: when an answering release is older than the current one of
 * the same major. A fourth number is a hotfix above its base release; what follows the numbers is
 * kept as text, from its separator on.
 */
module ModelWatch {
  import opened Prelude

  datatype Release = Release(major: nat, minor: nat, patch: nat, hotfix: Option<nat>, rest: string)

  // ----- Text -----

  /** `String.split` on one character. */
  function Split(s: string, c: char): (parts: seq<string>)
    ensures parts != []
  {
    if s == "" then [""]
    else
      var tail := Split(s[1..], c);
      if s[0] == c then [""] + tail else [[s[0]] + tail[0]] + tail[1..]
  }

  predicate Digit(c: char) {
    '0' <= c <= '9'
  }

  lemma DigitsAre(c: char)
    ensures Digit(c) <==> c in "0123456789"
  {
  }

  predicate Numeric(s: string) {
    s != "" && forall i :: 0 <= i < |s| ==> Digit(s[i])
  }

  function Value(s: string): nat
    requires forall i :: 0 <= i < |s| ==> Digit(s[i])
  {
    if s == "" then 0 else assert Digit(s[|s| - 1]); 10 * Value(s[..|s| - 1]) + (s[|s| - 1] as nat - '0' as nat)
  }

  // ----- Lexicographic orders -----

  ghost predicate StrictTotal<T(!new)>(less: (T, T) -> bool) {
    && (forall a :: !less(a, a))
    && (forall a, b :: less(a, b) || a == b || less(b, a))
    && (forall a, b, c :: less(a, b) && less(b, c) ==> less(a, c))
  }

  /** At the first difference, or the shorter first. */
  predicate LexLess<T(==)>(less: (T, T) -> bool, l: seq<T>, r: seq<T>) {
    r != [] && (l == [] || if l[0] == r[0] then LexLess(less, l[1..], r[1..]) else less(l[0], r[0]))
  }

  lemma {:induction false} LexIsIrreflexive<T(!new)>(less: (T, T) -> bool, l: seq<T>)
    ensures !LexLess(less, l, l)
  {
    if l != [] {
      LexIsIrreflexive(less, l[1..]);
    }
  }

  lemma {:induction false} LexIsTotal<T(!new)>(less: (T, T) -> bool, l: seq<T>, r: seq<T>)
    requires StrictTotal(less)
    ensures LexLess(less, l, r) || l == r || LexLess(less, r, l)
  {
    if l != [] && r != [] && l[0] == r[0] {
      LexIsTotal(less, l[1..], r[1..]);
      assert l == [l[0]] + l[1..] && r == [r[0]] + r[1..];
    }
  }

  lemma {:induction false} LexIsTransitive<T(!new)>(less: (T, T) -> bool, l: seq<T>, m: seq<T>, r: seq<T>)
    requires StrictTotal(less) && LexLess(less, l, m) && LexLess(less, m, r)
    ensures LexLess(less, l, r)
  {
    if l != [] && l[0] == m[0] == r[0] {
      LexIsTransitive(less, l[1..], m[1..], r[1..]);
    }
  }

  lemma LexIsStrictTotal<T(!new)>(less: (T, T) -> bool, l: seq<T>, m: seq<T>, r: seq<T>)
    requires StrictTotal(less)
    ensures !LexLess(less, l, l)
    ensures LexLess(less, l, m) || l == m || LexLess(less, m, l)
    ensures LexLess(less, l, m) && LexLess(less, m, r) ==> LexLess(less, l, r)
  {
    LexIsIrreflexive(less, l);
    LexIsTotal(less, l, m);
    if LexLess(less, l, m) && LexLess(less, m, r) {
      LexIsTransitive(less, l, m, r);
    }
  }

  predicate CharLess(a: char, b: char) {
    a < b
  }

  /** `x < y` on strings. */
  predicate StringLess(x: string, y: string) {
    LexLess(CharLess, x, y)
  }

  // ----- What the comparison depends on -----

  /** An identifier by what it compares as: a number, or its text. */
  datatype Id = Num(n: nat) | Word(s: string)

  function IdOf(s: string): Id {
    if Numeric(s) then Num(Value(s)) else Word(s)
  }

  predicate IdLess(a: Id, b: Id) {
    match (a, b)
    case (Num(m), Num(n)) => m < n
    case (Num(_), Word(_)) => true
    case (Word(_), Num(_)) => false
    case (Word(s), Word(t)) => StringLess(s, t)
  }

  function Ids(parts: seq<string>): seq<Id> {
    seq(|parts|, i requires 0 <= i < |parts| => IdOf(parts[i]))
  }

  /** The text before any build metadata. */
  function Suffix(r: Release): string {
    Split(r.rest, '+')[0]
  }

  function Parts(suffix: string): seq<string>
    requires suffix != ""
  {
    Split(suffix[1..], '.')
  }

  /** A release proper comes after every release of the same numbers that has a suffix. */
  datatype Rank = Suffixed(ids: seq<Id>) | Proper

  function RankOf(suffix: string): Rank {
    if suffix == "" then Proper else Suffixed(Ids(Parts(suffix)))
  }

  predicate RankLess(a: Rank, b: Rank) {
    match (a, b)
    case (Proper, _) => false
    case (Suffixed(_), Proper) => true
    case (Suffixed(l), Suffixed(r)) => LexLess(IdLess, l, r)
  }

  datatype Key = Key(major: nat, minor: nat, patch: nat, hotfix: nat, rank: Rank)

  function Hotfix(r: Release): nat {
    if r.hotfix.Some? then r.hotfix.value else 0
  }

  function KeyOf(r: Release): Key {
    Key(r.major, r.minor, r.patch, Hotfix(r), RankOf(Suffix(r)))
  }

  predicate KeyLess(a: Key, b: Key) {
    a.major == b.major &&
    if a.minor != b.minor then a.minor < b.minor
    else if a.patch != b.patch then a.patch < b.patch
    else if a.hotfix != b.hotfix then a.hotfix < b.hotfix
    else RankLess(a.rank, b.rank)
  }

  predicate Older(a: Release, b: Release) {
    KeyLess(KeyOf(a), KeyOf(b))
  }

  // ----- The comparison as the source computes it -----

  method SuffixIsOlder(left: string, right: string) returns (older: bool)
    ensures older == RankLess(RankOf(left), RankOf(right))
  {
    if left == right {
      RankIsStrictTotal(RankOf(left), RankOf(left), RankOf(left));
      return false;
    }
    if left == "" {
      return false;
    }
    if right == "" {
      return true;
    }
    var l, r := Parts(left), Parts(right);
    var i := 0;
    while i < MaxI(|l|, |r|)
      invariant 0 <= i <= |l| && i <= |r|
      invariant LexLess(IdLess, Ids(l), Ids(r)) == LexLess(IdLess, Ids(l)[i..], Ids(r)[i..])
    {
      if i >= |l| {
        return true;
      }
      if i >= |r| {
        return false;
      }
      assert Ids(l)[i..][1..] == Ids(l)[i + 1..] && Ids(r)[i..][1..] == Ids(r)[i + 1..];
      var x, y := l[i], r[i];
      if x != y {
        var nx, ny := Numeric(x), Numeric(y);
        if nx && ny {
          if Value(x) != Value(y) {
            return Value(x) < Value(y);
          }
        } else if nx != ny {
          return nx;
        } else {
          return StringLess(x, y);
        }
      }
      i := i + 1;
    }
    older := false;
  }

  method IsOlderSameMajorRelease(a: Release, b: Release) returns (older: bool)
    ensures older == Older(a, b)
  {
    if a.major != b.major {
      return false;
    }
    var left := [a.minor, a.patch, if a.hotfix.Some? then a.hotfix.value else 0];
    var right := [b.minor, b.patch, if b.hotfix.Some? then b.hotfix.value else 0];
    var i := 0;
    while i < 3
      invariant 0 <= i <= 3
      invariant forall j :: 0 <= j < i ==> left[j] == right[j]
    {
      if left[i] != right[i] {
        assert (i == 0 || left[0] == right[0]) && (i <= 1 || left[1] == right[1]);
        return left[i] < right[i];
      }
      i := i + 1;
    }
    assert left[0] == right[0] && left[1] == right[1] && left[2] == right[2];
    older := SuffixIsOlder(Suffix(a), Suffix(b));
  }

  // ----- It is an order -----

  lemma StringsAreStrictlyOrdered()
    ensures StrictTotal(StringLess)
  {
    forall a, b, c
      ensures !StringLess(a, a) && (StringLess(a, b) || a == b || StringLess(b, a))
      ensures StringLess(a, b) && StringLess(b, c) ==> StringLess(a, c)
    {
      LexIsStrictTotal(CharLess, a, b, c);
    }
  }

  lemma IdsAreStrictlyOrdered()
    ensures StrictTotal(IdLess)
  {
    StringsAreStrictlyOrdered();
    hide StringLess;
  }

  lemma RankIsStrictTotal(a: Rank, b: Rank, c: Rank)
    ensures !RankLess(a, a) && (RankLess(a, b) || a == b || RankLess(b, a))
    ensures RankLess(a, b) && RankLess(b, c) ==> RankLess(a, c)
  {
    IdsAreStrictlyOrdered();
    hide IdLess, LexLess;
    if a.Suffixed? {
      LexIsStrictTotal(IdLess, a.ids, a.ids, a.ids);
    }
    if a.Suffixed? && b.Suffixed? {
      LexIsStrictTotal(IdLess, a.ids, b.ids, a.ids);
      if c.Suffixed? {
        LexIsStrictTotal(IdLess, a.ids, b.ids, c.ids);
      }
    }
  }

  /** A strict partial order on all releases; within one major, comparable unless of equal standing. */
  lemma OlderIsAStrictOrder(a: Release, b: Release, c: Release)
    ensures !Older(a, a)
    ensures Older(a, b) ==> !Older(b, a)
    ensures Older(a, b) && Older(b, c) ==> Older(a, c)
    ensures a.major == b.major ==> Older(a, b) || KeyOf(a) == KeyOf(b) || Older(b, a)
  {
    hide RankLess, RankOf, Suffix;
    var x, y, z := KeyOf(a).rank, KeyOf(b).rank, KeyOf(c).rank;
    RankIsStrictTotal(x, y, z);
    RankIsStrictTotal(x, y, x);
  }

  /** Not being comparable is an equivalence within one major: a strict weak order. */
  lemma IncomparableIsAnEquivalence(a: Release, b: Release, c: Release)
    requires a.major == b.major == c.major
    requires !Older(a, b) && !Older(b, a) && !Older(b, c) && !Older(c, b)
    ensures !Older(a, c) && !Older(c, a)
    ensures Older(a, c) <==> Older(b, c)
  {
    OlderIsAStrictOrder(a, b, c);
    OlderIsAStrictOrder(b, c, a);
    OlderIsAStrictOrder(a, c, b);
  }

  // ----- Section 11 of Semantic Versioning 2.0.0 -----

  datatype SemVer = SemVer(major: nat, minor: nat, patch: nat, pre: seq<string>, build: string)

  predicate IdentifierChar(c: char) {
    Digit(c) || 'A' <= c <= 'Z' || 'a' <= c <= 'z' || c == '-'
  }

  /** A nonempty identifier over [0-9A-Za-z-], without leading zeros when it is a number. */
  predicate Identifier(s: string) {
    && s != "" && (forall i :: 0 <= i < |s| ==> IdentifierChar(s[i]))
    && (Numeric(s) && |s| > 1 ==> s[0] != '0')
  }

  ghost predicate WellFormed(v: SemVer) {
    forall i :: 0 <= i < |v.pre| ==> Identifier(v.pre[i])
  }

  /** Numbers compare as numbers and before text; text compares in ASCII order. */
  predicate LowerIdentifier(x: string, y: string) {
    if Numeric(x) && Numeric(y) then Value(x) < Value(y)
    else if Numeric(x) || Numeric(y) then Numeric(x)
    else StringLess(x, y)
  }

  /** The lists agree up to `i`, and there the left one is lower or has ended. */
  predicate LowerAt(l: seq<string>, r: seq<string>, i: nat) {
    i <= |l| && i <= |r| && l[..i] == r[..i] &&
    if i < |l| && i < |r| then LowerIdentifier(l[i], r[i]) else |l| < |r|
  }

  /** At the first differing identifier, or all equal and fewer of them. */
  ghost predicate LowerPre(l: seq<string>, r: seq<string>) {
    exists i: nat :: LowerAt(l, r, i)
  }

  ghost predicate LowerPrecedence(a: SemVer, b: SemVer) {
    || a.major < b.major
    || (a.major == b.major && a.minor < b.minor)
    || (a.major == b.major && a.minor == b.minor && a.patch < b.patch)
    || (a.major == b.major && a.minor == b.minor && a.patch == b.patch && a.pre != []
        && (b.pre == [] || LowerPre(a.pre, b.pre)))
  }

  function Join(parts: seq<string>): string
    requires parts != []
  {
    if |parts| == 1 then parts[0] else parts[0] + "." + Join(parts[1..])
  }

  /** The release id of a semantic version. */
  function ReleaseOf(v: SemVer): Release {
    Release(v.major, v.minor, v.patch, None,
            (if v.pre == [] then "" else "-" + Join(v.pre)) + (if v.build == "" then "" else "+" + v.build))
  }

  lemma {:induction false} SplitOfPrefix(s: string, t: string, c: char)
    requires c !in s
    ensures Split(s, c) == [s]
    ensures Split(s + [c] + t, c) == [s] + Split(t, c)
  {
    if s == "" {
      assert (s + [c] + t)[1..] == t;
    } else {
      assert s[0] in s && s == [s[0]] + s[1..];
      SplitOfPrefix(s[1..], t, c);
      assert (s + [c] + t)[1..] == s[1..] + [c] + t;
    }
  }

  lemma {:induction false} SplitOfJoin(parts: seq<string>)
    requires parts != [] && forall i :: 0 <= i < |parts| ==> '.' !in parts[i]
    ensures Split(Join(parts), '.') == parts
  {
    if |parts| == 1 {
      SplitOfPrefix(parts[0], "", '.');
    } else {
      SplitOfJoin(parts[1..]);
      SplitOfPrefix(parts[0], Join(parts[1..]), '.');
      assert parts[0] + "." + Join(parts[1..]) == parts[0] + ['.'] + Join(parts[1..]);
    }
  }

  lemma {:induction false} JoinHasNoPlus(parts: seq<string>)
    requires parts != [] && forall i :: 0 <= i < |parts| ==> '+' !in parts[i]
    ensures '+' !in Join(parts)
  {
    if |parts| > 1 {
      JoinHasNoPlus(parts[1..]);
    }
  }

  lemma RankOfSemVer(v: SemVer)
    requires WellFormed(v)
    ensures RankOf(Suffix(ReleaseOf(v))) == if v.pre == [] then Proper else Suffixed(Ids(v.pre))
  {
    var suffix := if v.pre == [] then "" else "-" + Join(v.pre);
    if v.pre != [] {
      JoinHasNoPlus(v.pre);
      SplitOfJoin(v.pre);
      assert suffix[1..] == Join(v.pre);
    }
    SplitOfPrefix(suffix, v.build, '+');
    assert suffix + ("+" + v.build) == suffix + ['+'] + v.build;
    assert suffix + "" == suffix;
    hide Join;
  }

  /** Without leading zeros, a numeric identifier is its value. */
  lemma {:induction false} ValueBounds(s: string)
    requires forall i :: 0 <= i < |s| ==> Digit(s[i])
    ensures Value(s) < Pow10(|s|)
    ensures s != "" && s[0] != '0' ==> Value(s) >= Pow10(|s| - 1)
  {
    if |s| > 1 {
      ValueBounds(s[..|s| - 1]);
    }
  }

  function Pow10(n: nat): nat {
    if n == 0 then 1 else 10 * Pow10(n - 1)
  }

  lemma {:induction false} Pow10Grows(m: nat, n: nat)
    requires m <= n
    ensures Pow10(m) <= Pow10(n)
  {
    if m < n {
      Pow10Grows(m, n - 1);
    }
  }

  lemma {:induction false} SameLengthSameValue(x: string, y: string)
    requires |x| == |y| && forall i :: 0 <= i < |x| ==> Digit(x[i]) && Digit(y[i])
    requires Value(x) == Value(y)
    ensures x == y
  {
    if x != "" {
      var n := |x| - 1;
      SameLengthSameValue(x[..n], y[..n]);
      assert x == x[..n] + [x[n]] && y == y[..n] + [y[n]];
    }
  }

  lemma NumbersAreCanonical(x: string, y: string)
    requires Identifier(x) && Identifier(y) && Numeric(x) && Numeric(y) && Value(x) == Value(y)
    ensures x == y
  {
    ValueBounds(x);
    ValueBounds(y);
    if |x| < |y| {
      Pow10Grows(|x|, |y| - 1);
    } else if |y| < |x| {
      Pow10Grows(|y|, |x| - 1);
    } else {
      SameLengthSameValue(x, y);
    }
  }

  lemma {:induction false} LexIsLowerPre(l: seq<string>, r: seq<string>)
    requires forall i :: 0 <= i < |l| ==> Identifier(l[i])
    requires forall i :: 0 <= i < |r| ==> Identifier(r[i])
    ensures LexLess(IdLess, Ids(l), Ids(r)) <==> LowerPre(l, r)
  {
    if l != [] && r != [] {
      assert Ids(l)[1..] == Ids(l[1..]) && Ids(r)[1..] == Ids(r[1..]);
      if IdOf(l[0]) == IdOf(r[0]) {
        if Numeric(l[0]) {
          NumbersAreCanonical(l[0], r[0]);
        }
        LexIsIrreflexive(CharLess, l[0]);
        LexIsLowerPre(l[1..], r[1..]);
        LowerPreTail(l, r);
      } else {
        FirstDiffers(l, r);
      }
    } else {
      assert l[..0] == r[..0];
      assert LowerAt(l, r, 0) <==> |l| < |r|;
    }
  }

  lemma LowerAtTail(l: seq<string>, r: seq<string>, i: nat)
    requires l != [] && r != [] && l[0] == r[0]
    ensures LowerAt(l, r, i + 1) <==> LowerAt(l[1..], r[1..], i)
  {
    hide LowerIdentifier;
    if i < |l| && i < |r| {
      assert l[..i + 1] == [l[0]] + l[1..][..i] && r[..i + 1] == [r[0]] + r[1..][..i];
      assert l[1..][..i] == l[..i + 1][1..] && r[1..][..i] == r[..i + 1][1..];
    }
  }

  lemma LowerPreTail(l: seq<string>, r: seq<string>)
    requires l != [] && r != [] && l[0] == r[0] && !LowerIdentifier(l[0], r[0])
    ensures LowerPre(l, r) <==> LowerPre(l[1..], r[1..])
  {
    assert !LowerAt(l, r, 0);
    hide LowerAt;
    if LowerPre(l, r) {
      var i: nat :| LowerAt(l, r, i);
      LowerAtTail(l, r, i - 1);
    }
    if LowerPre(l[1..], r[1..]) {
      var i: nat :| LowerAt(l[1..], r[1..], i);
      LowerAtTail(l, r, i);
    }
  }

  lemma FirstDiffers(l: seq<string>, r: seq<string>)
    requires l != [] && r != [] && l[0] != r[0]
    ensures LowerPre(l, r) <==> LowerIdentifier(l[0], r[0])
  {
    hide LowerIdentifier;
    assert l[..0] == r[..0];
    assert LowerAt(l, r, 0) <==> LowerIdentifier(l[0], r[0]);
    forall i: nat | i > 0
      ensures !LowerAt(l, r, i)
    {
      if i <= |l| && i <= |r| {
        assert l[..i][0] != r[..i][0];
      }
    }
  }

  /** On ids valid there, and without a fourth number, it is section 11 of Semantic Versioning 2.0.0. */
  lemma AgreesWithSemVer(a: SemVer, b: SemVer)
    requires WellFormed(a) && WellFormed(b)
    ensures Older(ReleaseOf(a), ReleaseOf(b)) <==> a.major == b.major && LowerPrecedence(a, b)
  {
    RankOfSemVer(a);
    RankOfSemVer(b);
    LexIsLowerPre(a.pre, b.pre);
    hide LexLess, IdLess, LowerPre, Ids, RankOf, Suffix;
  }
}
