/** Exactly when compareInternal (pkg/version/version.go) is transitive: three versions go round in a circle
    only where two numbers and a word meet at the first pre-release identifiers that differ. */
module VersionTransitive {
  import opened Decimal
  import opened Options
  import opened StringOrder
  import opened Versions
  import opened VersionOrder
  import opened VersionRoundTrip

  predicate IsNumber(id: string) {
    ParseUint(id).Some?
  }

  /** Two numbers x < y and an identifier z that is none, which as a string comes after y and before x. */
  predicate Tangled(x: string, y: string, z: string) {
    && IsNumber(x) && IsNumber(y) && !IsNumber(z) && ParseUint(x).value < ParseUint(y).value
    && StrCmp(y, z) < 0 && StrCmp(z, x) < 0
  }

  predicate Knot(a: string, b: string, c: string) {
    Tangled(a, b, c) || Tangled(b, c, a) || Tangled(c, a, b)
  }

  /** A knot at the first position where the three lists do not all agree. */
  predicate ListKnot(a: seq<string>, b: seq<string>, c: seq<string>) {
    a != [] && b != [] && c != [] &&
    if a[0] == b[0] == c[0] then ListKnot(a[1..], b[1..], c[1..]) else Knot(a[0], b[0], c[0])
  }

  predicate VersionKnot(u: Version, v: Version, w: Version) {
    && u.components == v.components == w.components
    && u.preRelease != [] && v.preRelease != [] && w.preRelease != []
    && ListKnot(Split(u.preRelease), Split(v.preRelease), Split(w.preRelease))
  }

  lemma {:induction false} IdentifierZero(a: string, b: string)
    requires LegalIdentifier(a) && LegalIdentifier(b)
    ensures CompareIdentifier(a, b) == 0 <==> a == b
  {
    StrAntisymmetric(a, b);
    if IsNumber(a) && IsNumber(b) {
      DecVal(a);
      DecVal(b);
    }
  }

  lemma {:induction false} IdentifierTransitiveExactly(a: string, b: string, c: string)
    requires CompareIdentifier(a, b) <= 0 && CompareIdentifier(b, c) <= 0
    requires LegalIdentifier(a) && LegalIdentifier(b) && LegalIdentifier(c)
    ensures CompareIdentifier(a, c) <= 0 <==> !Knot(a, b, c)
    ensures !Knot(a, b, c) && CompareIdentifier(a, c) == 0 ==> a == b == c
  {
    IdentifierZero(a, b);
    IdentifierZero(b, c);
    IdentifierZero(a, c);
    StrAntisymmetric(a, b);
    StrAntisymmetric(b, c);
    StrAntisymmetric(a, c);
    if StrCmp(a, b) <= 0 && StrCmp(b, c) <= 0 {
      StrTransitive(a, b, c);
    }
  }

  predicate AllLegal(ids: seq<string>) {
    forall i | 0 <= i < |ids| :: LegalIdentifier(ids[i])
  }

  lemma {:induction false} ListTransitiveExactly(a: seq<string>, b: seq<string>, c: seq<string>)
    requires AllLegal(a) && AllLegal(b) && AllLegal(c)
    requires CompareIdentifiers(a, b) <= 0 && CompareIdentifiers(b, c) <= 0
    ensures CompareIdentifiers(a, c) <= 0 <==> !ListKnot(a, b, c)
  {
    if a != [] && b != [] && c != [] {
      IdentifierTransitiveExactly(a[0], b[0], c[0]);
      IdentifierZero(a[0], b[0]);
      IdentifierZero(b[0], c[0]);
      IdentifierZero(a[0], c[0]);
      if a[0] == b[0] == c[0] {
        ListTransitiveExactly(a[1..], b[1..], c[1..]);
      }
    }
  }

  lemma {:induction false} PreReleaseCompared(a: string, b: string)
    requires a != [] && b != []
    ensures ComparePreRelease(a, b) == CompareIdentifiers(Split(a), Split(b))
  {
    FaithfulSelf(Split(a));
  }

  /** Semantic versions in two steps of the order are in order themselves, if and only if they are not
      knotted. */
  lemma {:induction false} TransitiveExactly(u: Version, v: Version, w: Version)
    requires SemanticVersion(u) && SemanticVersion(v) && SemanticVersion(w)
    requires Compare(u, v) <= 0 && Compare(v, w) <= 0
    ensures Compare(u, w) <= 0 <==> !VersionKnot(u, v, w)
  {
    EqualLengths(u.components, v.components);
    EqualLengths(v.components, w.components);
    EqualLengths(u.components, w.components);
    LexEqual(u.components, v.components);
    LexEqual(v.components, w.components);
    LexEqual(u.components, w.components);
    NumbersTransitive(u.components, v.components, w.components);
    if u.components == v.components == w.components && u.preRelease != [] && v.preRelease != [] && w.preRelease != [] {
      PreReleaseCompared(u.preRelease, v.preRelease);
      PreReleaseCompared(v.preRelease, w.preRelease);
      PreReleaseCompared(u.preRelease, w.preRelease);
      ListTransitiveExactly(Split(u.preRelease), Split(v.preRelease), Split(w.preRelease));
    }
  }

  predicate Parsed(v: Version) {
    SemanticVersion(v) || GenericVersion(v)
  }

  /** A generic version in between hides that the pre-release of u comes after that of w. */
  predicate Bridged(u: Version, v: Version, w: Version) {
    && u.semver && !v.semver && w.semver && u.components == w.components
    && ComparePreRelease(u.preRelease, w.preRelease) > 0
  }

  lemma {:induction false} NumbersBelow(v: Version, o: Version)
    requires Compare(v, o) <= 0
    ensures CompareNumbers(v.components, o.components) <= 0
  {
  }

  /** The same for every three versions that the parsers return, semantic and generic ones mixed. */
  lemma {:induction false} ParsedTransitiveExactly(u: Version, v: Version, w: Version)
    requires Parsed(u) && Parsed(v) && Parsed(w)
    requires Compare(u, v) <= 0 && Compare(v, w) <= 0
    ensures Compare(u, w) <= 0 <==> !(u.semver && v.semver && w.semver && VersionKnot(u, v, w)) && !Bridged(u, v, w)
  {
    NumbersBelow(u, v);
    NumbersBelow(v, w);
    NumbersTransitive(u.components, v.components, w.components);
    if u.semver && w.semver {
      EqualLengths(u.components, w.components);
      LexEqual(u.components, w.components);
      if v.semver {
        TransitiveExactly(u, v, w);
      }
    }
  }

  /** 1.0.0 equals the generic 1.0, which equals 1.0.0-a, which comes before 1.0.0. */
  lemma {:induction false} BridgeBreaks()
    ensures
      var u, v, w := Version([1, 0, 0], true, [], []), Version([1, 0], false, [], []), PreVersion("a");
      Compare(u, v) == 0 && Compare(v, w) == 0 && Compare(u, w) == 1
  {
    NumbersArePadded([1, 0, 0], [1, 0], 3);
    NumbersArePadded([1, 0], [1, 0, 0], 3);
    assert Pad([1, 0], 3) == [1, 0, 0] == Pad([1, 0, 0], 3);
    LexEqual([1, 0, 0], [1, 0, 0]);
    EqualLengths([1, 0, 0], [1, 0, 0]);
  }
}
