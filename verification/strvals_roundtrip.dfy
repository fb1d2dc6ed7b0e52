/** A nested map of strings survives being printed as a set line and parsed back, whatever the order
    in which its leaves are written. */
module StrvalsRoundTrip {
  import opened Options
  import opened StrvalsValues
  import opened StrvalsParser
  import opened StrvalsUpdate

  /** Non-empty strings under non-empty keys; every map inside is non-empty. */
  ghost predicate StringTree(v: Value) {
    match v
    case Str(s) => s != []
    case Map(m) => m != map[] && forall k | k in m :: k != [] && StringTree(m[k])
    case _ => false
  }

  /** The string at the end of a path of names, if there is one. */
  function LeafAt(v: Value, p: seq<string>): Option<string>
    decreases |p|
  {
    if p == [] then (if v.Str? then Some(v.s) else None)
    else if v.Map? && p[0] in v.entries then LeafAt(v.entries[p[0]], p[1..])
    else None
  }

  function Names(p: seq<string>): seq<Seg> {
    if p == [] then [] else [Name(p[0])] + Names(p[1..])
  }

  predicate IsLeaf(t: Tree, p: seq<string>) {
    LeafAt(Map(t), p).Some?
  }

  function LeafAssignment(t: Tree, p: seq<string>): Assignment
    requires IsLeaf(t, p)
  {
    Assignment(p[0], Names(p[1..]), Scalar(LeafAt(Map(t), p).value))
  }

  function Leaves(t: Tree, order: seq<seq<string>>): (line: seq<Assignment>)
    requires forall p | p in order :: IsLeaf(t, p)
    ensures |line| == |order| && forall i | 0 <= i < |order| :: line[i] == LeafAssignment(t, order[i])
  {
    if order == [] then [] else [LeafAssignment(t, order[0])] + Leaves(t, order[1..])
  }

  /** a is t with some entries missing. */
  ghost predicate Within(a: Value, t: Value) {
    match (a, t)
    case (Str(x), Str(y)) => x == y
    case (Map(x), Map(y)) => forall k | k in x :: k in y && Within(x[k], y[k])
    case _ => false
  }

  /** Writing a leaf of t into a part of t is never refused, stays within t, adds that leaf. */
  lemma {:induction false} PutLeaf(slot: Option<Value>, t: Value, p: seq<string>, level: nat)
    requires LeafAt(t, p).Some? && StringTree(t) && (slot.Some? ==> Within(slot.value, t))
    requires level + |p| <= MAX_NESTED_NAME_LEVEL
    ensures
      var r := Put(slot, Names(p), Str(LeafAt(t, p).value), level, false);
      r.Some? && Within(r.value, t) && LeafAt(r.value, p) == LeafAt(t, p)
    decreases |p|
  {
    if p != [] {
      assert Names(p)[0] == Name(p[0]) && Names(p)[1..] == Names(p[1..]);
      PutLeaf(Lookup(EntriesOf(slot), p[0]), t.entries[p[0]], p[1..], level + 1);
    }
  }

  /** ... and loses no other leaf. */
  lemma {:induction false} PutKeepsLeaf(slot: Option<Value>, t: Value, p: seq<string>, level: nat, q: seq<string>)
    requires LeafAt(t, p).Some? && StringTree(t) && slot.Some? && Within(slot.value, t)
    requires level + |p| <= MAX_NESTED_NAME_LEVEL
    requires LeafAt(slot.value, q).Some?
    ensures
      var r := Put(slot, Names(p), Str(LeafAt(t, p).value), level, false);
      r.Some? && LeafAt(r.value, q).Some?
    decreases |p|
  {
    PutLeaf(slot, t, p, level);
    if p != [] {
      assert Names(p)[0] == Name(p[0]) && Names(p)[1..] == Names(p[1..]);
      if q[0] == p[0] {
        PutKeepsLeaf(Lookup(EntriesOf(slot), p[0]), t.entries[p[0]], p[1..], level + 1, q[1..]);
      }
    }
  }

  lemma {:induction false} HasLeaf(t: Value) returns (p: seq<string>)
    requires StringTree(t)
    ensures LeafAt(t, p).Some?
  {
    if t.Str? {
      p := [];
    } else {
      var k :| k in t.entries;
      var q := HasLeaf(t.entries[k]);
      p := [k] + q;
    }
  }

  /** A part of t that holds all of t's leaves is t. */
  lemma {:induction false} AllLeavesMakeTree(a: Value, t: Value)
    requires Within(a, t) && StringTree(t)
    requires forall p | LeafAt(t, p).Some? :: LeafAt(a, p).Some?
    ensures a == t
  {
    if t.Map? {
      forall k | k in t.entries ensures k in a.entries && a.entries[k] == t.entries[k] {
        var q := HasLeaf(t.entries[k]);
        assert ([k] + q)[1..] == q && LeafAt(t, [k] + q).Some?;
        forall p | LeafAt(t.entries[k], p).Some? ensures LeafAt(a.entries[k], p).Some? {
          assert ([k] + p)[1..] == p && LeafAt(t, [k] + p).Some?;
        }
        AllLeavesMakeTree(a.entries[k], t.entries[k]);
      }
      assert a.entries == t.entries;
    }
  }

  /** Folding the updates over any list of leaves succeeds, stays within t, and keeps or adds each. */
  lemma {:induction false} FoldLeaves(a: Tree, t: Tree, order: seq<seq<string>>)
    requires t != map[] ==> StringTree(Map(t))
    requires Within(Map(a), Map(t))
    requires forall p | p in order :: IsLeaf(t, p) && |p| <= MAX_NESTED_NAME_LEVEL + 1
    ensures
      var r := AssignAll(a, Leaves(t, order), true);
      && r.Some? && Within(Map(r.value), Map(t))
      && (forall q | q in order || IsLeaf(a, q) :: IsLeaf(r.value, q))
    decreases |order|
  {
    if order != [] {
      var p := order[0];
      var sub, leaf := Lookup(a, p[0]), LeafAssignment(t, p);
      assert p in order;
      PutLeaf(sub, t[p[0]], p[1..], 0);
      var a' := Assign(a, leaf, true).value;
      assert IsLeaf(a', p);
      forall q | IsLeaf(a, q) ensures IsLeaf(a', q) {
        if q[0] == p[0] {
          PutKeepsLeaf(sub, t[p[0]], p[1..], 0, q[1..]);
        }
      }
      FoldLeaves(a', t, order[1..]);
      assert Leaves(t, order)[1..] == Leaves(t, order[1..]);
      assert forall q | q in order :: q == p || q in order[1..];
    }
  }

  lemma {:induction false} LeafNonEmpty(v: Value, p: seq<string>)
    requires StringTree(v) && LeafAt(v, p).Some?
    ensures LeafAt(v, p).value != [] && (forall n | n in p :: n != []) && NamesNonEmpty(Names(p))
    decreases |p|
  {
    if p != [] {
      LeafNonEmpty(v.entries[p[0]], p[1..]);
      assert p == [p[0]] + p[1..];
      assert Names(p)[1..] == Names(p[1..]);
    }
  }

  function Under(k: string, paths: seq<seq<string>>): (r: seq<seq<string>>)
    ensures forall p :: p in r <==> p != [] && p[0] == k && p[1..] in paths
  {
    var r := seq(|paths|, i requires 0 <= i < |paths| => [k] + paths[i]);
    assert forall i | 0 <= i < |paths| :: r[i] == [k] + paths[i] && r[i][1..] == paths[i];
    assert forall p | p != [] && p[0] == k && p[1..] in paths :: p == [k] + p[1..];
    r
  }

  /** Every value has a finite list of its leaves, so the orders RoundTrip speaks of exist. */
  lemma {:induction false} LeafOrder(v: Value) returns (order: seq<seq<string>>)
    ensures forall p :: p in order <==> LeafAt(v, p).Some?
  {
    order := if v.Str? then [[]] else [];
    if v.Map? {
      var todo := v.entries.Keys;
      while todo != {}
        invariant todo <= v.entries.Keys
        invariant forall p :: p in order <==> LeafAt(v, p).Some? && p[0] !in todo
      {
        var k :| k in todo;
        var below := LeafOrder(v.entries[k]);
        order, todo := order + Under(k, below), todo - {k};
      }
    }
  }

  /** Round trip, string mode: a nested map of strings at most 30 dots deep is rebuilt from its leaves,
      listed in any order and any number of times. */
  lemma RoundTrip(t: Tree, order: seq<seq<string>>)
    requires t != map[] ==> StringTree(Map(t))
    requires forall p :: p in order <==> IsLeaf(t, p)
    requires forall p | p in order :: |p| <= 31
    ensures Parse(map[], Line(Leaves(t, order)), true) == Outcome(t, true)
  {
    var line := Leaves(t, order);
    forall i | 0 <= i < |line| ensures WellFormed(line[i]) {
      var p := order[i];
      assert p in order;
      LeafNonEmpty(Map(t), p);
      LeafNonEmpty(t[p[0]], p[1..]);
    }
    FoldLeaves(map[], t, order);
    ParseRefines(map[], line, true);
    var r := AssignAll(map[], line, true).value;
    if t == map[] {
      assert r == map[];
    } else {
      AllLeavesMakeTree(Map(r), Map(t));
    }
  }
}
