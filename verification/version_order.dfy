/** What compareInternal orders: zero-padded numbers, and semantic versions by the precedence of section
    11 of Semantic Versioning 2.0.0, together with exactly where it departs from that precedence. */
module VersionOrder {
  import opened Decimal
  import opened Options
  import opened StringOrder
  import opened Versions
  import opened VersionRoundTrip

  /* ---------- antisymmetry, on all versions ---------- */

  lemma {:induction false} NumbersAntisymmetric(a: seq<nat>, b: seq<nat>)
    ensures CompareNumbers(a, b) == -CompareNumbers(b, a)
  {
    if a != [] && b != [] && a[0] == b[0] {
      NumbersAntisymmetric(a[1..], b[1..]);
    }
  }

  lemma {:induction false} IdentifiersAntisymmetric(a: seq<string>, b: seq<string>)
    ensures CompareIdentifiers(a, b) == -CompareIdentifiers(b, a)
  {
    if a != [] && b != [] {
      StrAntisymmetric(a[0], b[0]);
      IdentifiersAntisymmetric(a[1..], b[1..]);
    }
  }

  lemma Antisymmetric(v: Version, o: Version)
    ensures Compare(v, o) == -Compare(o, v)
  {
    NumbersAntisymmetric(v.components, o.components);
    IdentifiersAntisymmetric(Split(v.preRelease), Split(o.preRelease));
  }

  /* ---------- numbers: lexicographic order after zero padding ---------- */

  /** Lexicographic comparison of tuples of one length. */
  function Lex(a: seq<nat>, b: seq<nat>): int
    requires |a| == |b|
  {
    if a == [] then 0 else if a[0] != b[0] then NatCmp(a[0], b[0]) else Lex(a[1..], b[1..])
  }

  function Head(a: seq<nat>): nat {
    if a == [] then 0 else a[0]
  }

  function Rest(a: seq<nat>): seq<nat> {
    if a == [] then [] else a[1..]
  }

  /** a followed by zeros, n components in all. */
  function Pad(a: seq<nat>, n: nat): (p: seq<nat>)
    requires |a| <= n
    ensures |p| == n && a <= p && forall i | |a| <= i < n :: p[i] == 0
  {
    if n == 0 then [] else [Head(a)] + Pad(Rest(a), n - 1)
  }

  /** A missing component counts as a zero. */
  lemma NumbersStep(a: seq<nat>, b: seq<nat>)
    ensures CompareNumbers(a, b)
         == if Head(a) != Head(b) then NatCmp(Head(a), Head(b)) else CompareNumbers(Rest(a), Rest(b))
  {
    assert a != [] ==> a == [a[0]] + a[1..];
    assert b != [] ==> b == [b[0]] + b[1..];
    assert a != [] ==> (OnlyZeros(a) <==> a[0] == 0 && OnlyZeros(a[1..]));
    assert b != [] ==> (OnlyZeros(b) <==> b[0] == 0 && OnlyZeros(b[1..]));
  }

  /** compareInternal on numbers is lexicographic after padding with zeros to any common length. */
  lemma {:induction false} NumbersArePadded(a: seq<nat>, b: seq<nat>, n: nat)
    requires |a| <= n && |b| <= n
    ensures CompareNumbers(a, b) == Lex(Pad(a, n), Pad(b, n))
  {
    if n > 0 {
      NumbersStep(a, b);
      NumbersArePadded(Rest(a), Rest(b), n - 1);
      assert Pad(a, n)[1..] == Pad(Rest(a), n - 1) && Pad(b, n)[1..] == Pad(Rest(b), n - 1);
    }
  }

  lemma {:induction false} LexTransitive(a: seq<nat>, b: seq<nat>, c: seq<nat>)
    requires |a| == |b| == |c| && Lex(a, b) <= 0 && Lex(b, c) <= 0
    ensures Lex(a, c) <= 0 && (Lex(a, c) == 0 <==> Lex(a, b) == 0 && Lex(b, c) == 0)
  {
    if a != [] && a[0] == b[0] == c[0] {
      LexTransitive(a[1..], b[1..], c[1..]);
    }
  }

  /** Hence on numbers it is transitive, for components of any lengths. */
  lemma NumbersTransitive(a: seq<nat>, b: seq<nat>, c: seq<nat>)
    requires CompareNumbers(a, b) <= 0 && CompareNumbers(b, c) <= 0
    ensures CompareNumbers(a, c) <= 0
    ensures CompareNumbers(a, c) == 0 <==> CompareNumbers(a, b) == 0 && CompareNumbers(b, c) == 0
  {
    var n := |a| + |b| + |c|;
    NumbersArePadded(a, b, n);
    NumbersArePadded(b, c, n);
    NumbersArePadded(a, c, n);
    LexTransitive(Pad(a, n), Pad(b, n), Pad(c, n));
  }

  lemma {:induction false} LexEqual(a: seq<nat>, b: seq<nat>)
    requires |a| == |b|
    ensures Lex(a, b) == 0 <==> a == b
  {
    if a != [] {
      LexEqual(a[1..], b[1..]);
      assert a == [a[0]] + a[1..] && b == [b[0]] + b[1..];
    }
  }

  /** Generic versions of any lengths: a total preorder in which trailing zeros never matter. */
  lemma GenericOrder(v: Version, o: Version, n: nat)
    requires !v.semver || !o.semver
    requires |v.components| <= n && |o.components| <= n
    ensures Compare(v, o) == Lex(Pad(v.components, n), Pad(o.components, n))
    ensures Compare(v, o) == 0 <==> Pad(v.components, n) == Pad(o.components, n)
  {
    NumbersArePadded(v.components, o.components, n);
    LexEqual(Pad(v.components, n), Pad(o.components, n));
  }

  lemma GenericTransitive(u: Version, v: Version, w: Version)
    requires !u.semver && !v.semver && !w.semver
    requires Compare(u, v) <= 0 && Compare(v, w) <= 0
    ensures Compare(u, w) <= 0
    ensures Compare(u, w) == 0 <==> Compare(u, v) == 0 && Compare(v, w) == 0
  {
    NumbersTransitive(u.components, v.components, w.components);
  }

  /* ---------- section 11 of Semantic Versioning 2.0.0 ---------- */

  predicate Numeric(id: string) {
    id != [] && AllDigits(id)
  }

  function IdentifierPrecedence(a: string, b: string): int {
    if Numeric(a) && Numeric(b) then NatCmp(Val(a), Val(b))
    else if Numeric(a) then -1
    else if Numeric(b) then 1
    else StrCmp(a, b)
  }

  function ListPrecedence(a: seq<string>, b: seq<string>): int {
    if a == [] then (if b == [] then 0 else -1)
    else if b == [] then 1
    else
      var c := IdentifierPrecedence(a[0], b[0]);
      if c != 0 then c else ListPrecedence(a[1..], b[1..])
  }

  /** Precedence of two versions of three components each. */
  function Precedence(v: Version, o: Version): int
    requires |v.components| == |o.components|
  {
    var c := Lex(v.components, o.components);
    if c != 0 then c
    else if v.preRelease == [] then (if o.preRelease == [] then 0 else 1)
    else if o.preRelease == [] then -1
    else ListPrecedence(Split(v.preRelease), Split(o.preRelease))
  }

  /* ---------- precedence is a total preorder ---------- */

  lemma IdentifierTransitive(a: string, b: string, c: string)
    requires IdentifierPrecedence(a, b) <= 0 && IdentifierPrecedence(b, c) <= 0
    ensures IdentifierPrecedence(a, c) <= 0
    ensures IdentifierPrecedence(a, c) == 0 <==> IdentifierPrecedence(a, b) == 0 && IdentifierPrecedence(b, c) == 0
  {
    if !Numeric(a) && !Numeric(b) && !Numeric(c) {
      StrTransitive(a, b, c);
    }
  }

  lemma {:induction false} ListTransitive(a: seq<string>, b: seq<string>, c: seq<string>)
    requires ListPrecedence(a, b) <= 0 && ListPrecedence(b, c) <= 0
    ensures ListPrecedence(a, c) <= 0
    ensures ListPrecedence(a, c) == 0 <==> ListPrecedence(a, b) == 0 && ListPrecedence(b, c) == 0
  {
    if a != [] && b != [] && c != [] {
      IdentifierTransitive(a[0], b[0], c[0]);
      if IdentifierPrecedence(a[0], b[0]) == 0 && IdentifierPrecedence(b[0], c[0]) == 0 {
        ListTransitive(a[1..], b[1..], c[1..]);
      }
    }
  }

  lemma PrecedenceTransitive(u: Version, v: Version, w: Version)
    requires |u.components| == |v.components| == |w.components|
    requires Precedence(u, v) <= 0 && Precedence(v, w) <= 0
    ensures Precedence(u, w) <= 0
    ensures Precedence(u, w) == 0 <==> Precedence(u, v) == 0 && Precedence(v, w) == 0
  {
    LexTransitive(u.components, v.components, w.components);
    if u.preRelease != [] && v.preRelease != [] && w.preRelease != [] &&
       ListPrecedence(Split(u.preRelease), Split(v.preRelease)) <= 0 &&
       ListPrecedence(Split(v.preRelease), Split(w.preRelease)) <= 0 {
      ListTransitive(Split(u.preRelease), Split(v.preRelease), Split(w.preRelease));
    }
  }

  /* ---------- where compareInternal is that precedence ---------- */

  predicate StartsWithLetter(id: string) {
    id != [] && ('A' <= id[0] <= 'Z' || 'a' <= id[0] <= 'z')
  }

  /** A number below 2^64, or an identifier that starts with a letter. */
  predicate Tame(id: string) {
    ParseUint(id).Some? || StartsWithLetter(id)
  }

  predicate TameVersion(v: Version) {
    v.semver && |v.components| == 3 && (v.preRelease != [] ==> forall id | id in Split(v.preRelease) :: Tame(id))
  }

  lemma TameIdentifier(a: string, b: string)
    requires Tame(a) && Tame(b)
    ensures CompareIdentifier(a, b) == IdentifierPrecedence(a, b)
  {
  }

  lemma {:induction false} TameList(a: seq<string>, b: seq<string>)
    requires (forall id | id in a :: Tame(id)) && forall id | id in b :: Tame(id)
    ensures CompareIdentifiers(a, b) == ListPrecedence(a, b)
  {
    if a != [] && b != [] {
      TameIdentifier(a[0], b[0]);
      TameList(a[1..], b[1..]);
    }
  }

  lemma {:induction false} ListReflexive(a: seq<string>)
    ensures ListPrecedence(a, a) == 0
  {
    if a != [] {
      StrAntisymmetric(a[0], a[0]);
      ListReflexive(a[1..]);
    }
  }

  lemma {:induction false} EqualLengths(a: seq<nat>, b: seq<nat>)
    requires |a| == |b|
    ensures CompareNumbers(a, b) == Lex(a, b)
  {
    if a != [] {
      EqualLengths(a[1..], b[1..]);
    }
  }

  lemma TameOrder(v: Version, o: Version)
    requires TameVersion(v) && TameVersion(o)
    ensures Compare(v, o) == Precedence(v, o)
  {
    EqualLengths(v.components, o.components);
    ListReflexive(Split(v.preRelease));
    if v.preRelease != [] && o.preRelease != [] {
      TameList(Split(v.preRelease), Split(o.preRelease));
    }
  }

  /** Hence a total preorder there. */
  lemma TameTransitive(u: Version, v: Version, w: Version)
    requires TameVersion(u) && TameVersion(v) && TameVersion(w)
    requires Compare(u, v) <= 0 && Compare(v, w) <= 0
    ensures Compare(u, w) <= 0
    ensures Compare(u, w) == 0 <==> Compare(u, v) == 0 && Compare(v, w) == 0
  {
    TameOrder(u, v);
    TameOrder(v, w);
    TameOrder(u, w);
    PrecedenceTransitive(u, v, w);
  }

  function PreVersion(pre: string): Version {
    Version([1, 0, 0], true, pre, [])
  }

  lemma OneIdentifier(a: string, b: string)
    requires a != b && a != [] && b != [] && '.' !in a && '.' !in b
    ensures Compare(PreVersion(a), PreVersion(b)) == CompareIdentifier(a, b)
  {
    SplitPiece(a, []);
    SplitPiece(b, []);
    var n := PreVersion(a).components;
    EqualLengths(n, n);
    LexEqual(n, n);
    assert CompareIdentifiers([a][1..], [b][1..]) == 0;
    assert CompareIdentifiers([a], [b]) == CompareIdentifier(a, b);
  }

  /** In general it is not an order: 10 < 1a < 2 < 10. */
  lemma Cycle()
    ensures LessThan(PreVersion("10"), PreVersion("1a"))
    ensures LessThan(PreVersion("1a"), PreVersion("2"))
    ensures LessThan(PreVersion("2"), PreVersion("10"))
  {
    OneIdentifier("10", "1a");
    OneIdentifier("1a", "2");
    OneIdentifier("2", "10");
    assert CompareIdentifier("2", "10") == -1 by {
      assert "10"[..1] == "1" && "1"[..0] == [] && "2"[..0] == [];
      assert Val("1") == 1 && Val("10") == 10 && Val("2") == 2;
    }
    assert ParseUint("1a").None? by { assert !IsDigit("1a"[1]); }
    assert StrCmp("10", "1a") == -1 by { assert "10"[1..] == "0" && "1a"[1..] == "a"; }
  }

  /* ---------- exactly where it departs from the precedence ---------- */

  /** Numeric identifiers carry no leading zeros, as section 9 of Semantic Versioning 2.0.0 demands. */
  predicate CanonicalNumbers(ids: seq<string>) {
    forall i | 0 <= i < |ids| :: ids[i] != [] && (Numeric(ids[i]) ==> !ZeroPrefixed(ids[i]))
  }

  /** String comparison, which is used unless both are numbers below 2^64, gets these two different
      identifiers right: a number must come first as a string, and of two numbers the shorter one. */
  predicate RightAsStrings(a: string, b: string) {
    if Numeric(a) && Numeric(b) then
      |a| == |b| || (|a| < |b| <==> StrCmp(a, b) < 0)
    else if Numeric(a) then StrCmp(a, b) < 0
    else if Numeric(b) then StrCmp(a, b) > 0
    else true
  }

  /** The first identifiers that differ are both numbers below 2^64 or are right as strings. */
  predicate Faithful(a: seq<string>, b: seq<string>) {
    a != [] && b != [] ==>
      if a[0] == b[0] then Faithful(a[1..], b[1..])
      else (ParseUint(a[0]).Some? && ParseUint(b[0]).Some?) || RightAsStrings(a[0], b[0])
  }

  function Pow10(n: nat): nat {
    if n == 0 then 1 else 10 * Pow10(n - 1)
  }

  lemma {:induction false} ValSize(s: string)
    requires AllDigits(s)
    ensures Val(s) < Pow10(|s|)
    ensures s != [] && s[0] != '0' ==> Val(s) >= Pow10(|s| - 1)
  {
    if |s| > 1 {
      ValSize(s[..|s| - 1]);
    } else if |s| == 1 {
      assert s[..0] == [] && Val(s) == DigitOf(s[0]);
      assert Pow10(1) == 10;
    }
  }

  lemma {:induction false} Pow10Monotone(m: nat, n: nat)
    requires m <= n
    ensures 1 <= Pow10(m) <= Pow10(n)
  {
    if n > 0 && m < n {
      Pow10Monotone(m, n - 1);
    } else if n > 0 {
      Pow10Monotone(m - 1, n - 1);
    }
  }

  lemma ShorterIsSmaller(a: string, b: string)
    requires Numeric(a) && Numeric(b) && !ZeroPrefixed(b) && |a| < |b|
    ensures Val(a) < Val(b)
  {
    ValSize(a);
    ValSize(b);
    Pow10Monotone(|a|, |b| - 1);
  }

  lemma {:induction false} ValHead(s: string)
    requires s != [] && AllDigits(s)
    ensures Val(s) == DigitOf(s[0]) * Pow10(|s| - 1) + Val(s[1..])
  {
    var init, d := s[..|s| - 1], DigitOf(s[|s| - 1]);
    if |s| > 1 {
      ValHead(init);
      assert s[1..][..|s| - 2] == init[1..] && s[1..][|s| - 2] == s[|s| - 1];
    } else {
      assert init == [] && s[1..] == [];
    }
  }

  /** Digit strings of one length are ordered alike as strings and as numbers. */
  lemma {:induction false} SameLengthOrder(a: string, b: string)
    requires |a| == |b| && AllDigits(a) && AllDigits(b)
    ensures StrCmp(a, b) == NatCmp(Val(a), Val(b))
  {
    if a != [] {
      ValHead(a);
      ValHead(b);
      ValSize(a[1..]);
      ValSize(b[1..]);
      SameLengthOrder(a[1..], b[1..]);
      var p := Pow10(|a| - 1);
      if a[0] < b[0] {
        HeadDecides(DigitOf(a[0]), DigitOf(b[0]), Val(a[1..]), Val(b[1..]), p);
      } else if b[0] < a[0] {
        HeadDecides(DigitOf(b[0]), DigitOf(a[0]), Val(b[1..]), Val(a[1..]), p);
      }
    }
  }

  lemma HeadDecides(d: nat, e: nat, x: nat, y: nat, p: nat)
    requires d < e && x < p
    ensures d * p + x < e * p + y
  {
    assert e * p >= (d + 1) * p == d * p + p;
  }

  /** One pair of different identifiers. */
  lemma IdentifierExactly(a: string, b: string)
    requires a != b && a != [] && b != []
    requires (Numeric(a) ==> !ZeroPrefixed(a)) && (Numeric(b) ==> !ZeroPrefixed(b))
    ensures CompareIdentifier(a, b) != 0 && IdentifierPrecedence(a, b) != 0
    ensures CompareIdentifier(a, b) == IdentifierPrecedence(a, b)
        <==> (ParseUint(a).Some? && ParseUint(b).Some?) || RightAsStrings(a, b)
  {
    StrAntisymmetric(a, b);
    if Numeric(a) && Numeric(b) {
      DecVal(a);
      DecVal(b);
      if |a| == |b| {
        SameLengthOrder(a, b);
      } else if |a| < |b| {
        ShorterIsSmaller(a, b);
      } else {
        ShorterIsSmaller(b, a);
      }
    }
  }

  lemma {:induction false} ListExactly(a: seq<string>, b: seq<string>)
    requires CanonicalNumbers(a) && CanonicalNumbers(b)
    ensures CompareIdentifiers(a, b) == ListPrecedence(a, b) <==> Faithful(a, b)
  {
    if a != [] && b != [] {
      if a[0] == b[0] {
        StrAntisymmetric(a[0], b[0]);
        ListExactly(a[1..], b[1..]);
      } else {
        IdentifierExactly(a[0], b[0]);
      }
    }
  }

  lemma {:induction false} SplitInjective(a: string, b: string)
    requires Split(a) == Split(b)
    ensures a == b
  {
    if a != [] && b != [] {
      var x, y := Split(a[1..]), Split(b[1..]);
      if a[0] == '.' {
        assert Split(a)[0] == [] && Split(a)[1..] == x;
        assert b[0] == '.' && Split(b)[1..] == y;
      } else {
        assert Split(a)[0] == [a[0]] + x[0] && Split(b)[0] != [];
        assert b[0] == a[0] && Split(b)[0][1..] == y[0] && Split(a)[0][1..] == x[0];
        assert x == [x[0]] + Split(a)[1..] && y == [y[0]] + Split(b)[1..];
      }
      SplitInjective(a[1..], b[1..]);
      assert a == [a[0]] + a[1..] && b == [b[0]] + b[1..];
    } else if a != [] || b != [] {
      NonEmptySplit(if a == [] then b else a);
    }
  }

  lemma NonEmptySplit(a: string)
    requires a != []
    ensures Split(a) != [[]]
  {
  }

  lemma {:induction false} FaithfulSelf(a: seq<string>)
    ensures Faithful(a, a) && CompareIdentifiers(a, a) == 0
  {
    if a != [] {
      StrAntisymmetric(a[0], a[0]);
      FaithfulSelf(a[1..]);
    }
  }

  /** compareInternal follows section 11 on a pair of versions if and only if their numbers already
      decide, or one has no pre-release, or the first differing identifiers are compared faithfully. */
  lemma FollowsPrecedenceExactly(v: Version, o: Version)
    requires v.semver && o.semver && |v.components| == |o.components| == 3
    requires v.preRelease != [] ==> CanonicalNumbers(Split(v.preRelease))
    requires o.preRelease != [] ==> CanonicalNumbers(Split(o.preRelease))
    ensures Compare(v, o) == Precedence(v, o)
        <==> v.components != o.components || v.preRelease == [] || o.preRelease == []
             || Faithful(Split(v.preRelease), Split(o.preRelease))
  {
    EqualLengths(v.components, o.components);
    LexEqual(v.components, o.components);
    ListReflexive(Split(v.preRelease));
    FaithfulSelf(Split(v.preRelease));
    if v.preRelease != [] && o.preRelease != [] {
      ListExactly(Split(v.preRelease), Split(o.preRelease));
    }
  }

  /* ---------- when it reports equality ---------- */

  lemma {:induction false} ZeroMeansEqual(a: seq<string>, b: seq<string>)
    requires (forall id | id in a :: LegalIdentifier(id)) && forall id | id in b :: LegalIdentifier(id)
    requires CompareIdentifiers(a, b) == 0
    ensures a == b
  {
    if a != [] && b != [] {
      var x, y := a[0], b[0];
      assert LegalIdentifier(x) && LegalIdentifier(y);
      StrAntisymmetric(x, y);
      if ParseUint(x).Some? && ParseUint(y).Some? {
        DecVal(x);
        DecVal(y);
      }
      ZeroMeansEqual(a[1..], b[1..]);
      assert a == [x] + a[1..] && b == [y] + b[1..];
    }
  }

  /** Two semantic versions compare equal exactly when they differ at most in build metadata. */
  lemma EqualUpToBuild(v: Version, o: Version)
    requires SemanticVersion(v) && SemanticVersion(o)
    ensures Compare(v, o) == 0 <==> v.(buildMetadata := []) == o.(buildMetadata := [])
  {
    EqualLengths(v.components, o.components);
    LexEqual(v.components, o.components);
    if v.preRelease != o.preRelease && v.preRelease != [] && o.preRelease != []
       && CompareIdentifiers(Split(v.preRelease), Split(o.preRelease)) == 0 {
      ZeroMeansEqual(Split(v.preRelease), Split(o.preRelease));
      SplitInjective(v.preRelease, o.preRelease);
    }
  }
}
