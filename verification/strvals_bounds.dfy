/** What a set line can never do: grow a list without bound, disturb its other elements, or touch more
    than one entry per assignment. */
module StrvalsBounds {
  import opened Options
  import opened StrvalsValues
  import opened StrvalsParser

  /** list' is list with at most element i replaced; if it grew, it grew to end at i, an allowed index,
      and the gap holds nils. */
  ghost predicate TouchedAt(list: seq<Value>, i: nat, list': seq<Value>) {
    && (|list'| == |list| || (|list'| == i + 1 > |list| && i <= 65536))
    && forall j | 0 <= j < |list'| && j != i :: list'[j] == if j < |list| then list[j] else Nil
  }

  lemma SetIndexTouches(list: seq<Value>, inPlace: seq<Value>, i: nat, v: Value)
    requires TouchedAt(list, i, inPlace) && |inPlace| == |list|
    ensures TouchedAt(list, i, SetIndex(inPlace, i, v).list)
  {
  }

  lemma {:induction false} BracketTouches(list: seq<Value>, i: nat, level: nat, s: string, st: bool)
    ensures TouchedAt(list, i, ItemAtBracket(list, i, level, s, st).list)
  {
    var idx := KeyIndex(s);
    if idx.i.Some? && (|list| > i ==> list[i].Nil? || list[i].List?) {
      var found := |list| > i && list[i].List?;
      var inner := ListItem(if found then list[i].items else [], idx.i.value, level, idx.rest, st);
      var inPlace := if found && |list[i].items| == |inner.list| then list[i := List(inner.list)] else list;
      SetIndexTouches(list, inPlace, i, List(inner.list));
    }
  }

  lemma {:induction false} DotTouches(list: seq<Value>, i: nat, level: nat, s: string, st: bool)
    ensures TouchedAt(list, i, ItemAtDot(list, i, level, s, st).list)
  {
    var inner := Key(if |list| > i && list[i].Map? then list[i].entries else map[], level, s, st);
    SetIndexTouches(list, if |list| > i then list[i := Map(inner.data)] else list, i, Map(inner.data));
  }

  /** listItem, whether or not it succeeds, touches its own element only. */
  lemma {:induction false} ItemTouches(list: seq<Value>, i: nat, level: nat, s: string, st: bool)
    ensures TouchedAt(list, i, ListItem(list, i, level, s, st).list)
  {
    var k := RunesUntil(s, ITEM_STOPS);
    if k.text == [] && k.stop.At? {
      if k.stop.c == '=' {
        assert TouchedAt(list, i, ItemAtEquals(list, i, k.rest, st).list);
      } else if k.stop.c == '[' {
        BracketTouches(list, i, level, k.rest, st);
      } else {
        DotTouches(list, i, level, k.rest, st);
      }
    }
  }

  ghost predicate SameEntry(m: Tree, m': Tree, k: string) {
    (k in m' <==> k in m) && (k in m ==> m'[k] == m[k])
  }

  lemma {:induction false} KeyAtBracketTouches(data: Tree, n: string, level: nat, s: string, st: bool, k: string)
    requires k != n
    ensures SameEntry(data, KeyAtBracket(data, n, level, s, st).data, k)
  {
  }

  lemma {:induction false} KeyAtDotTouches(data: Tree, n: string, level: nat, s: string, st: bool, k: string)
    requires k != n
    ensures SameEntry(data, KeyAtDot(data, n, level, s, st).data, k)
  {
  }

  /** key, whether or not it succeeds, touches the entry whose name it reads only. */
  lemma {:induction false} KeyTouches(data: Tree, level: nat, s: string, st: bool, k: string)
    requires k != RunesUntil(s, KEY_STOPS).text
    ensures SameEntry(data, Key(data, level, s, st).data, k)
  {
    var n := RunesUntil(s, KEY_STOPS);
    if n.stop.At? {
      if n.stop.c == '[' {
        KeyAtBracketTouches(data, n.text, level, n.rest, st, k);
      } else if n.stop.c == '=' {
        assert SameEntry(data, KeyAtEquals(data, n.text, n.rest, st).data, k);
      } else if n.stop.c == '.' {
        KeyAtDotTouches(data, n.text, level, n.rest, st, k);
      }
    }
  }

  /** Every list in the value has at most b elements. */
  ghost predicate Bounded(v: Value, b: nat) {
    match v
    case List(items) => |items| <= b && forall x | x in items :: Bounded(x, b)
    case Map(m) => forall k | k in m :: Bounded(m[k], b)
    case _ => true
  }

  lemma {:induction false} ElementsBounded(s: string, list: seq<Value>, st: bool, b: nat)
    requires |list| + |s| <= b && forall x | x in list :: Bounded(x, b)
    ensures var r := ElementsFrom(s, list, st); r.Elements? ==> Bounded(List(r.vals), b)
    decreases |s|
  {
    var k := RunesUntil(s, ELEMENT_STOPS);
    if k.stop.At? && k.stop.c != '}' {
      ElementsBounded(k.rest, list + [TypedVal(k.text, st)], st, b);
    }
  }

  lemma ValListBounded(s: string, st: bool, b: nat)
    requires |s| <= b
    ensures var r := ValList(s, st); r.Elements? ==> Bounded(List(r.vals), b)
  {
    if s != [] && s[0] == '{' {
      ElementsBounded(s[1..], [], st, b);
    }
  }

  lemma SetIndexBounded(list: seq<Value>, i: nat, v: Value, b: nat)
    requires b > MAX_INDEX && Bounded(List(list), b) && Bounded(v, b)
    ensures Bounded(List(SetIndex(list, i, v).list), b)
  {
    var l := SetIndex(list, i, v).list;
    forall x | x in l ensures Bounded(x, b) {
      var j :| 0 <= j < |l| && l[j] == x;
      assert j < |list| ==> list[j] in list;
    }
  }

  lemma {:induction false} KeyBounded(data: Tree, level: nat, s: string, st: bool, b: nat)
    requires b > MAX_INDEX && |s| <= b && Bounded(Map(data), b)
    ensures Bounded(Map(Key(data, level, s, st).data), b)
    decreases |s|, 0
  {
    var k := RunesUntil(s, KEY_STOPS);
    if k.stop.At? {
      if k.stop.c == '[' {
        KeyAtBracketBounded(data, k.text, level, k.rest, st, b);
      } else if k.stop.c == '=' {
        ValListBounded(k.rest, st, b);
        assert Bounded(Map(KeyAtEquals(data, k.text, k.rest, st).data), b);
      } else if k.stop.c == '.' {
        KeyAtDotBounded(data, k.text, level, k.rest, st, b);
      }
    }
  }

  lemma {:induction false} KeyAtBracketBounded(data: Tree, k: string, level: nat, s: string, st: bool, b: nat)
    requires b > MAX_INDEX && |s| <= b && Bounded(Map(data), b)
    ensures Bounded(Map(KeyAtBracket(data, k, level, s, st).data), b)
    decreases |s|, 1
  {
    var idx := KeyIndex(s);
    if idx.i.Some? && (k in data ==> data[k].List?) {
      ItemBounded(if k in data then data[k].items else [], idx.i.value, level, idx.rest, st, b);
    }
  }

  lemma {:induction false} KeyAtDotBounded(data: Tree, k: string, level: nat, s: string, st: bool, b: nat)
    requires b > MAX_INDEX && |s| <= b && Bounded(Map(data), b)
    ensures Bounded(Map(KeyAtDot(data, k, level, s, st).data), b)
    decreases |s|, 1
  {
    if k in data ==> data[k].Map? {
      KeyBounded(if k in data then data[k].entries else map[], level + 1, s, st, b);
    }
  }

  lemma {:induction false} ItemBounded(list: seq<Value>, i: int, level: nat, s: string, st: bool, b: nat)
    requires b > MAX_INDEX && |s| <= b && Bounded(List(list), b)
    ensures Bounded(List(ListItem(list, i, level, s, st).list), b)
    decreases |s|, 0
  {
    var k := RunesUntil(s, ITEM_STOPS);
    if i >= 0 && k.text == [] && k.stop.At? {
      if k.stop.c == '=' {
        ValListBounded(k.rest, st, b);
        var vl := ValList(k.rest, st);
        SetIndexBounded(list, i, if vl.Elements? then List(vl.vals) else if vl.NoInput? then Str("")
                                 else TypedVal(RunesUntil(k.rest, VALUE_STOPS).text, st), b);
      } else if k.stop.c == '[' {
        ItemAtBracketBounded(list, i, level, k.rest, st, b);
      } else {
        var entries := if |list| > i && list[i].Map? then list[i].entries else map[];
        assert |list| > i ==> list[i] in list;
        KeyBounded(entries, level, k.rest, st, b);
        StoredBounded(list, i, Map(Key(entries, level, k.rest, st).data), b);
        assert Bounded(List(ItemAtDot(list, i, level, k.rest, st).list), b);
      }
    }
  }

  lemma {:induction false} ItemAtBracketBounded(list: seq<Value>, i: nat, level: nat, s: string, st: bool, b: nat)
    requires b > MAX_INDEX && |s| <= b && Bounded(List(list), b)
    ensures Bounded(List(ItemAtBracket(list, i, level, s, st).list), b)
    decreases |s|, 1
  {
    var idx := KeyIndex(s);
    if idx.i.Some? {
      var items := if |list| > i && list[i].List? then list[i].items else [];
      assert |list| > i ==> list[i] in list;
      ItemBounded(items, idx.i.value, level, idx.rest, st, b);
      StoredBounded(list, i, List(ListItem(items, idx.i.value, level, idx.rest, st).list), b);
    }
  }

  /** The ways a nested call's result can end up in the outer list. */
  lemma StoredBounded(list: seq<Value>, i: nat, v: Value, b: nat)
    requires b > MAX_INDEX && Bounded(List(list), b) && Bounded(v, b)
    ensures Bounded(List(SetIndex(list, i, v).list), b)
    ensures i < |list| ==> Bounded(List(list[i := v]), b) && Bounded(List(SetIndex(list[i := v], i, v).list), b)
  {
    SetIndexBounded(list, i, v, b);
    if i < |list| {
      forall x | x in list[i := v] ensures Bounded(x, b) {
        assert x == v || x in list;
      }
      SetIndexBounded(list[i := v], i, v, b);
    }
  }

  /** No line makes a list longer than the lists it started with, 65537 and its own length, wherever in
      the tree, whether or not it parses. */
  lemma {:induction false} ParseBounded(data: Tree, s: string, st: bool, b: nat)
    requires b > 65536 && |s| <= b && Bounded(Map(data), b)
    ensures Bounded(Map(Parse(data, s, st).data), b)
    decreases |s|
  {
    KeyBounded(data, 0, s, st, b);
    var r := Key(data, 0, s, st);
    if r.err == Ok {
      ParseBounded(r.data, r.rest, st, b);
    }
  }
}
