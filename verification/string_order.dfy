/** Go's order on strings, and sorting and compacting lists of them as the slices package does. */
module StringOrder {

  /** Comparison by code point, which is also the byte order of the UTF-8 encodings. */
  function StrCmp(a: string, b: string): int {
    if a == [] then (if b == [] then 0 else -1)
    else if b == [] then 1
    else if a[0] != b[0] then (if a[0] < b[0] then -1 else 1)
    else StrCmp(a[1..], b[1..])
  }

  lemma {:induction false} StrAntisymmetric(a: string, b: string)
    ensures StrCmp(a, b) == -StrCmp(b, a)
    ensures StrCmp(a, b) == 0 <==> a == b
    ensures -1 <= StrCmp(a, b) <= 1
  {
    if a != [] && b != [] && a[0] == b[0] {
      StrAntisymmetric(a[1..], b[1..]);
      assert a == [a[0]] + a[1..] && b == [b[0]] + b[1..];
    }
  }

  lemma {:induction false} StrTransitive(a: string, b: string, c: string)
    requires StrCmp(a, b) <= 0 && StrCmp(b, c) <= 0
    ensures StrCmp(a, c) <= 0 && (StrCmp(a, c) == 0 <==> StrCmp(a, b) == 0 && StrCmp(b, c) == 0)
  {
    if a != [] && b != [] && c != [] && a[0] == b[0] == c[0] {
      StrTransitive(a[1..], b[1..], c[1..]);
    }
  }

  function Elements(s: seq<string>): set<string> {
    set x | x in s
  }

  predicate Sorted(s: seq<string>) {
    forall i, j | 0 <= i < j < |s| :: StrCmp(s[i], s[j]) <= 0
  }

  predicate StrictlySorted(s: seq<string>) {
    forall i, j | 0 <= i < j < |s| :: StrCmp(s[i], s[j]) < 0
  }

  function Insert(x: string, s: seq<string>): seq<string> {
    if s == [] || StrCmp(x, s[0]) <= 0 then [x] + s else [s[0]] + Insert(x, s[1..])
  }

  /** The sorted rearrangement of a list. */
  function Sort(s: seq<string>): seq<string> {
    if s == [] then [] else Insert(s[0], Sort(s[1..]))
  }

  lemma {:induction false} InsertAdds(x: string, s: seq<string>)
    ensures multiset(Insert(x, s)) == multiset{x} + multiset(s)
  {
    if s != [] {
      InsertAdds(x, s[1..]);
      assert s == [s[0]] + s[1..];
    }
  }

  lemma {:induction false} InsertSorts(x: string, s: seq<string>)
    requires Sorted(s)
    ensures Sorted(Insert(x, s))
  {
    if s == [] {
    } else if StrCmp(x, s[0]) <= 0 {
      forall j | 0 < j < |s| ensures StrCmp(x, s[j]) <= 0 {
        StrTransitive(x, s[0], s[j]);
      }
    } else {
      InsertSorts(x, s[1..]);
      StrAntisymmetric(x, s[0]);
      var t := Insert(x, s[1..]);
      forall j | 0 <= j < |t| ensures StrCmp(s[0], t[j]) <= 0 {
        InsertAdds(x, s[1..]);
        assert t[j] in multiset(t);
      }
    }
  }

  /** Sorting is a sorted permutation. */
  lemma {:induction false} SortSorts(s: seq<string>)
    ensures Sorted(Sort(s)) && multiset(Sort(s)) == multiset(s)
  {
    if s != [] {
      SortSorts(s[1..]);
      InsertSorts(s[0], Sort(s[1..]));
      InsertAdds(s[0], Sort(s[1..]));
      assert s == [s[0]] + s[1..];
    }
  }

  /** slices.Compact: runs of equal elements become one. */
  function Compact(s: seq<string>): (r: seq<string>)
    ensures (s == [] <==> r == []) && (s != [] ==> r[0] == s[0])
  {
    if |s| <= 1 then s
    else if s[0] == s[1] then Compact(s[1..])
    else [s[0]] + Compact(s[1..])
  }

  lemma {:induction false} CompactElements(s: seq<string>)
    ensures Elements(Compact(s)) == Elements(s)
  {
    if |s| > 1 {
      CompactElements(s[1..]);
      assert s == [s[0]] + s[1..];
      assert Elements(s) == {s[0]} + Elements(s[1..]);
      assert s[0] == s[1] ==> s[1..][0] in s[1..];
    }
  }

  lemma {:induction false} CompactStrict(s: seq<string>)
    requires Sorted(s)
    ensures StrictlySorted(Compact(s))
  {
    if |s| > 1 {
      CompactStrict(s[1..]);
      if s[0] != s[1] {
        var t := Compact(s[1..]);
        forall j | 0 <= j < |t| ensures StrCmp(s[0], t[j]) < 0 {
          StrAntisymmetric(s[0], s[1]);
          if j > 0 {
            StrTransitive(s[0], s[1], t[j]);
          }
        }
      }
    }
  }

  lemma NonEmpty(a: seq<string>)
    ensures Elements(a) != {} <==> a != []
  {
    if a != [] {
      assert a[0] in Elements(a);
    }
  }

  lemma FirstIsLeast(a: seq<string>, x: string)
    requires StrictlySorted(a) && x in a
    ensures StrCmp(a[0], x) <= 0
  {
    StrAntisymmetric(a[0], x);
  }

  /** A strictly sorted list is determined by its set of elements. */
  lemma {:induction false} StrictUnique(a: seq<string>, b: seq<string>)
    requires StrictlySorted(a) && StrictlySorted(b) && Elements(a) == Elements(b)
    ensures a == b
  {
    if a != [] && b != [] {
      assert a[0] in Elements(b) && b[0] in Elements(a);
      FirstIsLeast(a, b[0]);
      FirstIsLeast(b, a[0]);
      StrAntisymmetric(a[0], b[0]);
      TailElements(a);
      TailElements(b);
      StrictUnique(a[1..], b[1..]);
      assert a == [a[0]] + a[1..] && b == [b[0]] + b[1..];
    } else {
      NonEmpty(a);
      NonEmpty(b);
    }
  }

  lemma TailElements(a: seq<string>)
    requires StrictlySorted(a) && a != []
    ensures Elements(a[1..]) == Elements(a) - {a[0]} && StrictlySorted(a[1..])
  {
    forall x | x in a[1..] ensures x != a[0] {
      var j :| 0 <= j < |a[1..]| && a[1..][j] == x;
      assert StrCmp(a[0], a[j + 1]) < 0;
      StrAntisymmetric(a[0], x);
    }
    assert a == [a[0]] + a[1..];
  }

  /** Sorted and without duplicates. */
  function Canonical(s: seq<string>): seq<string> {
    Compact(Sort(s))
  }

  lemma CanonicalMeans(s: seq<string>)
    ensures StrictlySorted(Canonical(s)) && Elements(Canonical(s)) == Elements(s)
  {
    SortSorts(s);
    CompactStrict(Sort(s));
    CompactElements(Sort(s));
    assert forall x :: x in s <==> x in multiset(s);
    assert forall x :: x in Sort(s) <==> x in multiset(Sort(s));
  }

  /** Order and repetition do not matter. */
  lemma CanonicalUnique(a: seq<string>, b: seq<string>)
    requires Elements(a) == Elements(b)
    ensures Canonical(a) == Canonical(b)
  {
    CanonicalMeans(a);
    CanonicalMeans(b);
    StrictUnique(Canonical(a), Canonical(b));
  }
}
