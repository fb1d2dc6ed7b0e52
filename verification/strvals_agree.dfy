/** The two set-line parsers agree: a literal value and its escaped form, after the same path text,
    leave the same tree and the same verdict. */
module StrvalsAgree {
  import opened Decimal
  import opened Options
  import opened StrvalsValues
  import opened StrvalsParser
  import opened StrvalsUpdate
  import L = StrvalsLiteral

  /** Path text as a user may type it: anything, well formed or not, without '\', ',' and '='. */
  predicate PlainPath(p: string) {
    forall i | 0 <= i < |p| :: p[i] != '\\' && p[i] != ',' && p[i] != '='
  }

  function Text(p: string, w: string): string {
    p + (['='] + w)
  }

  /** Scanning up to the first '=' at the latest, both parsers stop at the same place of the path. */
  lemma {:induction false} SameScan(p: string, v: string, stops: set<char>)
    requires PlainPath(p) && '=' in stops && '\\' !in stops
    ensures
      var a, b := RunesUntil(Text(p, Escape(v)), stops), L.RunesUntil(Text(p, v), stops - {','});
      && a.stop.At? && a.text == b.text && a.stop == b.stop
      && (if a.stop.c == '=' then a.rest == Escape(v) && b.rest == v
          else |a.text| < |p| && a.rest == Text(p[|a.text| + 1..], Escape(v)) && b.rest == Text(p[|a.text| + 1..], v))
  {
    if p == [] {
      assert Text(p, Escape(v)) == ['='] + Escape(v) && Text(p, v) == ['='] + v;
    } else {
      assert Text(p, Escape(v))[1..] == Text(p[1..], Escape(v)) && Text(p, v)[1..] == Text(p[1..], v);
      if p[0] !in stops {
        SameScan(p[1..], v, stops);
        var t := RunesUntil(Text(p[1..], Escape(v)), stops).text;
        assert |t| < |p[1..]| ==> p[1..][|t| + 1..] == p[|t| + 2..];
      }
    }
  }

  /** What both find when they read an index: the text up to the first ']' of the path, and the rest. */
  ghost predicate IndexFound(p: string, w: string, r: Scan) {
    r.stop == At(']') && |r.text| < |p| && r.text == p[..|r.text|] && r.rest == Text(p[|r.text| + 1..], w)
  }

  lemma {:induction false} IndexFoundStep(p: string, w: string, r: Scan)
    requires p != [] && IndexFound(p[1..], w, r)
    ensures IndexFound(p, w, Scan([p[0]] + r.text, r.stop, r.rest))
  {
    assert p[1..][|r.text| + 1..] == p[|r.text| + 2..];
    assert p[..|r.text| + 1] == [p[0]] + p[1..][..|r.text|];
  }

  /** Reading an index, both stop at the same ']' of the path ... */
  lemma {:induction false} SameIndex(p: string, v: string)
    requires PlainPath(p) && ']' in p
    ensures
      var a, b := RunesUntil(Text(p, Escape(v)), INDEX_STOPS), L.RunesUntil(Text(p, v), INDEX_STOPS);
      IndexFound(p, Escape(v), a) && IndexFound(p, v, b) && a.text == b.text
  {
    assert Text(p, Escape(v))[1..] == Text(p[1..], Escape(v)) && Text(p, v)[1..] == Text(p[1..], v);
    if p[0] != ']' {
      assert p == [p[0]] + p[1..];
      SameIndex(p[1..], v);
      IndexFoundStep(p, Escape(v), RunesUntil(Text(p[1..], Escape(v)), INDEX_STOPS));
      IndexFoundStep(p, v, L.RunesUntil(Text(p[1..], v), INDEX_STOPS));
    }
  }

  /** ... or both read past the '='. */
  lemma {:induction false} IndexPastEquals(p: string, v: string)
    requires PlainPath(p) && ']' !in p
    ensures p + ['='] <= RunesUntil(Text(p, Escape(v)), INDEX_STOPS).text
    ensures p + ['='] <= L.RunesUntil(Text(p, v), INDEX_STOPS).text
  {
    if p == [] {
      assert Text(p, Escape(v)) == ['='] + Escape(v) && Text(p, v) == ['='] + v;
    } else {
      assert Text(p, Escape(v))[1..] == Text(p[1..], Escape(v)) && Text(p, v)[1..] == Text(p[1..], v);
      assert p == [p[0]] + p[1..];
      IndexPastEquals(p[1..], v);
      assert p + ['='] == [p[0]] + (p[1..] + ['=']);
    }
  }

  lemma NotANumber(p: string, t: string)
    requires p + ['='] <= t
    ensures Atoi(t).None?
  {
    assert t[|p|] == '=';
    assert |p| > 0 ==> t[1..][|p| - 1] == '=';
  }

  lemma SameKeyIndex(p: string, v: string)
    requires PlainPath(p)
    ensures
      var a, b := KeyIndex(Text(p, Escape(v))), L.KeyIndex(Text(p, v));
      && a.i == b.i
      && (a.i.Some? ==> exists p' :: PlainPath(p') && a.rest == Text(p', Escape(v)) && b.rest == Text(p', v))
  {
    var a, b := RunesUntil(Text(p, Escape(v)), INDEX_STOPS), L.RunesUntil(Text(p, v), INDEX_STOPS);
    if ']' in p {
      SameIndex(p, v);
      assert PlainPath(p[|a.text| + 1..]);
    } else {
      IndexPastEquals(p, v);
      NotANumber(p, a.text);
      NotANumber(p, b.text);
    }
  }

  lemma {:induction false} WholeValue(v: string)
    ensures L.RunesUntil(v, {}).text == v
  {
    if v != [] {
      WholeValue(v[1..]);
      assert v == [v[0]] + v[1..];
    }
  }

  /** Same tree, same verdict, and a successful call has read the whole line. */
  ghost predicate KeysAgree(a: KeyRes, b: KeyRes) {
    a.data == b.data && a.err == b.err && (a.err == Ok || a.err == Failed) && (a.err == Ok ==> a.rest == b.rest == [])
  }

  ghost predicate ItemsAgree(a: ListRes, b: ListRes) {
    a.list == b.list && a.err == b.err && a.err != EOF && (a.err == Ok ==> a.rest == b.rest == [])
  }

  function EntriesUnder(data: Tree, k: string): Tree {
    if k in data && data[k].Map? then data[k].entries else map[]
  }

  function ItemsUnder(data: Tree, k: string): seq<Value> {
    if k in data && data[k].List? then data[k].items else []
  }

  /** What a key makes of the element stored below its bracket. */
  function BracketDone(data: Tree, k: string, item: ListRes): KeyRes {
    if item.err == Panicked then KeyRes(data, Failed, item.rest)
    else KeyRes(StoreList(data, k, ItemsUnder(data, k), item.list), item.err, item.rest)
  }

  lemma {:induction false} BracketUnfold(data: Tree, k: string, level: nat, s: string, t: string)
    requires KeyIndex(s).i == L.KeyIndex(t).i
    ensures
      var a, b := KeyAtBracket(data, k, level, s, true), L.KeyAtBracket(data, k, level, t);
      if KeyIndex(s).i.None? || (k in data && !data[k].List?) then
        a.data == b.data == data && a.err == b.err == Failed
      else
        var i, before := KeyIndex(s).i.value, ItemsUnder(data, k);
        && a == BracketDone(data, k, ListItem(before, i, level, KeyIndex(s).rest, true))
        && b == BracketDone(data, k, L.ListItem(before, i, level, L.KeyIndex(t).rest))
  {
  }

  lemma {:induction false} KeyAgree(data: Tree, level: nat, p: string, v: string)
    requires PlainPath(p) && v != []
    ensures KeysAgree(Key(data, level, Text(p, Escape(v)), true), L.Key(data, level, Text(p, v)))
    decreases |p|, 0
  {
    SameScan(p, v, KEY_STOPS);
    assert KEY_STOPS - {','} == L.KEY_STOPS;
    var k := RunesUntil(Text(p, Escape(v)), KEY_STOPS);
    if k.stop.c == '=' {
      EqualsAgree(data, k.text, v);
    } else {
      var p' := p[|k.text| + 1..];
      if k.stop.c == '.' {
        DotAgree(data, k.text, level, p', v);
      } else {
        BracketAgree(data, k.text, level, p', v);
      }
    }
  }

  lemma {:induction false} EqualsAgree(data: Tree, k: string, v: string)
    requires v != []
    ensures KeyAtEquals(data, k, Escape(v), true) == KeyRes(Set(data, k, Str(v)), Ok, [])
    ensures L.RunesUntil(v, {}).text == v
  {
    ValueText(v, [], true);
    assert Escape(v) + [] == Escape(v);
    WholeValue(v);
  }

  lemma {:induction false} DotAgree(data: Tree, k: string, level: nat, p: string, v: string)
    requires PlainPath(p) && v != []
    ensures KeysAgree(KeyAtDot(data, k, level, Text(p, Escape(v)), true), L.KeyAtDot(data, k, level, Text(p, v)))
    decreases |p|, 1
  {
    KeyAgree(EntriesUnder(data, k), level + 1, p, v);
  }

  lemma {:induction false} BracketAgree(data: Tree, k: string, level: nat, p: string, v: string)
    requires PlainPath(p) && v != []
    ensures KeysAgree(KeyAtBracket(data, k, level, Text(p, Escape(v)), true), L.KeyAtBracket(data, k, level, Text(p, v)))
    decreases |p|, 1
  {
    SameKeyIndex(p, v);
    BracketUnfold(data, k, level, Text(p, Escape(v)), Text(p, v));
    var idx := KeyIndex(Text(p, Escape(v)));
    if idx.i.Some? {
      var p' :| PlainPath(p') && idx.rest == Text(p', Escape(v)) && L.KeyIndex(Text(p, v)).rest == Text(p', v);
      ItemAgree(ItemsUnder(data, k), idx.i.value, level, p', v);
    }
  }

  lemma {:induction false} ItemAgree(list: seq<Value>, i: int, level: nat, p: string, v: string)
    requires PlainPath(p) && v != []
    ensures ItemsAgree(ListItem(list, i, level, Text(p, Escape(v)), true), L.ListItem(list, i, level, Text(p, v)))
    decreases |p|, 0
  {
    SameScan(p, v, ITEM_STOPS);
    assert ITEM_STOPS - {','} == ITEM_STOPS;
    var k := RunesUntil(Text(p, Escape(v)), ITEM_STOPS);
    if i >= 0 && k.text == [] {
      if k.stop.c == '=' {
        ValueText(v, [], true);
        assert Escape(v) + [] == Escape(v);
        WholeValue(v);
      } else {
        var p' := p[|k.text| + 1..];
        if k.stop.c == '.' {
          KeyAgree(if |list| > i && list[i].Map? then list[i].entries else map[], level, p', v);
        } else {
          NestedAgree(list, i, level, p', v);
        }
      }
    }
  }

  lemma {:induction false} NestedAgree(list: seq<Value>, i: nat, level: nat, p: string, v: string)
    requires PlainPath(p) && v != []
    ensures ItemsAgree(ItemAtBracket(list, i, level, Text(p, Escape(v)), true), L.ItemAtBracket(list, i, level, Text(p, v)))
    decreases |p|, 1
  {
    SameKeyIndex(p, v);
    var idx := KeyIndex(Text(p, Escape(v)));
    if idx.i.Some? {
      var p' :| PlainPath(p') && idx.rest == Text(p', Escape(v)) && L.KeyIndex(Text(p, v)).rest == Text(p', v);
      ItemAgree(if |list| > i && list[i].List? then list[i].items else [], idx.i.value, level, p', v);
    }
  }

  /** ParseLiteralInto on path=v and ParseIntoString on path=escape(v), into any destination; module
      StrvalsEmpty is about the empty value. */
  lemma ParsersAgree(data: Tree, p: string, v: string)
    requires PlainPath(p) && v != []
    ensures L.Parse(data, Text(p, v)) == Parse(data, Text(p, Escape(v)), true)
  {
    KeyAgree(data, 0, p, v);
    assert forall d :: Key(d, 0, [], true) == L.Key(d, 0, []) == KeyRes(d, EOF, []);
  }
}
