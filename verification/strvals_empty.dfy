/** Where the two set-line parsers agree on an empty value. The string-mode parser reports the end of the
    input as soon as it has stored an empty value under a name, and what encloses that name then stops
    early; the literal parser goes on. A walk down the destination along the path says what comes of it. */
module StrvalsEmpty {
  import opened Decimal
  import opened Options
  import opened StrvalsValues
  import opened StrvalsParser
  import opened StrvalsAgree
  import L = StrvalsLiteral

  /** What becomes of the two parsers: the same in every respect; the same but for the report of the end
      of the input; the same report but different data; success of the string-mode parser only. */
  datatype Fate = Identical | EndOnly | DataApart | OneFails

  /** The length of the name that the path text starts with. */
  function NameLen(p: string): (n: nat)
    ensures n <= |p|
    ensures n < |p| ==> p[n] == '.' || p[n] == '['
  {
    if p == [] || p[0] == '.' || p[0] == '[' then 0 else 1 + NameLen(p[1..])
  }

  function IndexLen(p: string): (n: nat)
    requires ']' in p
    ensures n < |p| && p[n] == ']'
  {
    if p[0] == ']' then 0 else 1 + IndexLen(p[1..])
  }

  /** The index before the first ']', and the path text after it. */
  function IndexAt(p: string): Option<int> {
    if ']' in p then Atoi(p[..IndexLen(p)]) else None
  }

  function AfterIndex(p: string): (q: string)
    ensures IndexAt(p).Some? ==> |q| < |p|
  {
    if ']' in p then p[IndexLen(p) + 1..] else []
  }

  /** A list in which the element to store is missing or out of bounds is left alone by the string-mode
      parser. */
  function AtIndex(f: Fate, length: nat, i: nat): Fate {
    if f == Identical || f == OneFails then f
    else if i > MAX_INDEX then OneFails
    else if i >= length then DataApart
    else f
  }

  function KeyFate(data: Tree, level: nat, p: string): Fate
    decreases |p|, 0
  {
    var n := NameLen(p);
    var k := p[..n];
    if n == |p| then EndOnly
    else if p[n] == '.' then DotKeyFate(data, k, level, p[n + 1..])
    else BracketKeyFate(data, k, level, p[n + 1..])
  }

  /** A map that stays empty fails the literal parser; none is stored under an empty key that is not there. */
  function DotKeyFate(data: Tree, k: string, level: nat, q: string): Fate
    decreases |q|, 1
  {
    if level + 1 > MAX_NESTED_NAME_LEVEL || (k in data && !data[k].Map?) then Identical
    else DotMasked(KeyFate(EntriesUnder(data, k), level + 1, q), data, k, q)
  }

  function DotMasked(f: Fate, data: Tree, k: string, q: string): Fate {
    if f == EndOnly && EntriesUnder(data, k) == map[] && NameLen(q) == 0 then OneFails
    else if f == DataApart && k == [] && k !in data then EndOnly
    else f
  }

  /** A list that would have to grow is not stored under an empty key. */
  function BracketKeyFate(data: Tree, k: string, level: nat, q: string): Fate
    decreases |q|, 1
  {
    if IndexAt(q).None? || (k in data && !data[k].List?) then Identical
    else
      Masked(ItemFate(ItemsUnder(data, k), IndexAt(q).value, level, AfterIndex(q)), k, IndexAt(q).value, |ItemsUnder(data, k)|)
  }

  function Masked(f: Fate, k: string, i: int, length: nat): Fate {
    if f == DataApart && k == [] && i >= length then EndOnly else f
  }

  function ItemFate(list: seq<Value>, i: int, level: nat, p: string): Fate
    decreases |p|, 0
  {
    if i < 0 || NameLen(p) > 0 || p == [] then Identical
    else if p[0] == '.' then
      AtIndex(KeyFate(if i < |list| && list[i].Map? then list[i].entries else map[], level, p[1..]), |list|, i)
    else if IndexAt(p[1..]).None? || (i < |list| && !list[i].Nil? && !list[i].List?) then Identical
    else
      AtIndex(ItemFate(if i < |list| && list[i].List? then list[i].items else [], IndexAt(p[1..]).value, level, AfterIndex(p[1..])),
              |list|, i)
  }

  /* ---------- scanning ---------- */

  /** A rune of the path that is no stop is read as it stands. */
  lemma {:induction false} ScanStep(c: char, t: string, stops: set<char>)
    requires c !in stops && c != '\\'
    ensures RunesUntil([c] + t, stops) == Read(c, RunesUntil(t, stops))
    ensures L.RunesUntil([c] + t, stops) == Read(c, L.RunesUntil(t, stops))
  {
    assert ([c] + t)[1..] == t;
  }

  function Read(c: char, r: Scan): Scan {
    Scan([c] + r.text, r.stop, r.rest)
  }

  lemma {:induction false} ScanStop(c: char, t: string, stops: set<char>)
    requires c in stops
    ensures RunesUntil([c] + t, stops) == Scan([], At(c), t) == L.RunesUntil([c] + t, stops)
  {
    assert ([c] + t)[1..] == t;
  }

  lemma {:induction false} TextStep(p: string)
    requires p != []
    ensures Text(p, []) == [p[0]] + Text(p[1..], [])
  {
  }

  /** What a scan for the end of a name finds. */
  function NameFound(p: string): Scan {
    var n := NameLen(p);
    if n == |p| then Scan(p, At('='), []) else Scan(p[..n], At(p[n]), Text(p[n + 1..], []))
  }

  lemma {:induction false} NameFoundStep(p: string)
    requires NameLen(p) > 0
    ensures NameFound(p) == Read(p[0], NameFound(p[1..]))
  {
    var n := NameLen(p[1..]);
    assert p == [p[0]] + p[1..];
    if n < |p[1..]| {
      assert p[..n + 1] == [p[0]] + p[1..][..n];
      assert p[1..][n + 1..] == p[n + 2..];
    }
  }

  lemma {:induction false} NameScan(p: string, stops: set<char>)
    requires PlainPath(p) && {'=', '.', '['} <= stops <= KEY_STOPS
    ensures RunesUntil(Text(p, []), stops) == NameFound(p) == L.RunesUntil(Text(p, []), stops)
  {
    if p == [] {
      assert Text(p, []) == ['='] + [];
      ScanStop('=', [], stops);
    } else {
      TextStep(p);
      if NameLen(p) == 0 {
        ScanStop(p[0], Text(p[1..], []), stops);
      } else {
        ScanStep(p[0], Text(p[1..], []), stops);
        NameFoundStep(p);
        NameScan(p[1..], stops);
      }
    }
  }

  lemma {:induction false} IndexScan(p: string)
    requires PlainPath(p)
    ensures KeyIndex(Text(p, [])).i == IndexAt(p) == L.KeyIndex(Text(p, [])).i
    ensures IndexAt(p).Some? ==>
              KeyIndex(Text(p, [])).rest == Text(AfterIndex(p), []) == L.KeyIndex(Text(p, [])).rest
    ensures IndexAt(p).Some? ==> PlainPath(AfterIndex(p))
  {
    if ']' in p {
      IndexText(p);
    } else {
      SameKeyIndex(p, []);
      IndexPastEquals(p, []);
      NotANumber(p, RunesUntil(Text(p, []), INDEX_STOPS).text);
    }
  }

  lemma {:induction false} IndexText(p: string)
    requires PlainPath(p) && ']' in p
    ensures
      var r := Scan(p[..IndexLen(p)], At(']'), Text(p[IndexLen(p) + 1..], []));
      RunesUntil(Text(p, []), INDEX_STOPS) == r && L.RunesUntil(Text(p, []), INDEX_STOPS) == r
  {
    assert Text(p, [])[1..] == Text(p[1..], []);
    if p[0] != ']' {
      IndexText(p[1..]);
      var n := IndexLen(p[1..]);
      assert p[..n + 1] == [p[0]] + p[1..][..n] && p[1..][n + 1..] == p[n + 2..];
    }
  }

  /* ---------- the walk foretells the two parsers ---------- */

  ghost predicate KeyFates(f: Fate, a: KeyRes, b: KeyRes, data: Tree, p: string) {
    match f
    case Identical => a.data == b.data && a.err == b.err != EOF && (a.err == Ok ==> a.rest == b.rest == [])
    case EndOnly => a.data == b.data && a.err == EOF && b.err == Ok && b.rest == []
                    && (b.data == map[] <==> data == map[] && NameLen(p) == 0)
    case DataApart => a.data != b.data && a.err == EOF && b.err == Ok && b.rest == [] && b.data != map[]
                      && (a.data == map[] ==> data == map[])
    case OneFails => a.err == EOF && b.err == Failed
  }

  ghost predicate ItemFates(f: Fate, a: ListRes, b: ListRes, list: seq<Value>, i: int) {
    match f
    case Identical => a.list == b.list && a.err == b.err != EOF && (a.err == Ok ==> a.rest == b.rest == [])
    case EndOnly => a.list == b.list && a.err == EOF && b.err == Ok && b.rest == []
    case DataApart => a.list != b.list && a.err == EOF && b.err == Ok && b.rest == []
                      && (i >= |list| ==> a.list == list) && |b.list| >= |list| && (|b.list| == |list| <==> i < |list|)
    case OneFails => a.err == EOF && b.err == Failed
  }

  /** What encloses a name below a dot makes of the two results. */
  lemma {:induction false} DotFate(data: Tree, k: string, f: Fate, a: KeyRes, b: KeyRes, p: string, q: string)
    requires KeyFates(f, a, b, EntriesUnder(data, k), q) && (k in data ==> data[k].Map?)
    requires NameLen(p) == |k|
    ensures KeyFates(DotMasked(f, data, k, q), DotDone(data, k, a), DotDone(data, k, b), data, p)
  {
    assert StoreMap(data, k, b.data) != data ==> k in StoreMap(data, k, b.data);
    if f == DataApart && (k != [] || k in data) {
      assert StoreMap(data, k, b.data)[k] == Map(b.data);
    }
  }

  function DotDone(data: Tree, k: string, inner: KeyRes): KeyRes {
    if inner.err == Ok && inner.data == map[] then KeyRes(data, Failed, inner.rest)
    else KeyRes(StoreMap(data, k, inner.data), inner.err, inner.rest)
  }

  lemma {:induction false} BracketFate(data: Tree, k: string, f: Fate, a: ListRes, b: ListRes, i: int, p: string)
    requires ItemFates(f, a, b, ItemsUnder(data, k), i) && (k in data ==> data[k].List?)
    requires NameLen(p) == |k| && (f == EndOnly || f == DataApart ==> |a.list| == |ItemsUnder(data, k)|)
    requires f == EndOnly ==> i < |ItemsUnder(data, k)|
    ensures
      KeyFates(Masked(f, k, i, |ItemsUnder(data, k)|), BracketDone(data, k, a), BracketDone(data, k, b), data, p)
  {
    var before := ItemsUnder(data, k);
    assert k != [] ==> k in StoreList(data, k, before, b.list);
    if f == DataApart {
      assert k in data ==> data[k] == List(before) && data[k := List(before)] == data;
      if k != [] || i < |before| {
        assert StoreList(data, k, before, a.list)[k] == List(a.list);
        assert StoreList(data, k, before, b.list)[k] == List(b.list);
      }
    }
  }

  lemma {:induction false} ItemDotFate(list: seq<Value>, i: nat, f: Fate, a: KeyRes, b: KeyRes, inner: Tree, q: string)
    requires KeyFates(f, a, b, inner, q) && a.err != Panicked
    ensures ItemFates(AtIndex(f, |list|, i), ItemDotDone(list, i, a), ItemDotDone(list, i, b), list, i)
  {
    if i < |list| {
      assert ItemDotDone(list, i, a).list[i] == Map(a.data) && ItemDotDone(list, i, b).list[i] == Map(b.data);
      assert list[i := Map(b.data)][i := Map(b.data)] == list[i := Map(b.data)];
    }
  }

  function ItemDotDone(list: seq<Value>, i: nat, inner: KeyRes): ListRes {
    var inPlace := if |list| > i then list[i := Map(inner.data)] else list;
    if inner.err != Ok then ListRes(inPlace, inner.err, inner.rest)
    else var l := SetIndex(inPlace, i, Map(inner.data)); ListRes(l.list, l.err, inner.rest)
  }

  lemma {:induction false} NestedFate(list: seq<Value>, i: nat, f: Fate, a: ListRes, b: ListRes, j: int)
    requires ItemFates(f, a, b, Nested(list, i), j)
    requires f == EndOnly || f == DataApart ==> |a.list| == |Nested(list, i)|
    requires f == EndOnly ==> i < |list| && list[i].List?
    ensures ItemFates(AtIndex(f, |list|, i), NestedDone(list, i, a), NestedDone(list, i, b), list, i)
  {
    if f == EndOnly || f == DataApart {
      var found := i < |list| && list[i].List?;
      if found && i <= MAX_INDEX {
        assert NestedDone(list, i, a).list[i] == List(a.list) && NestedDone(list, i, b).list[i] == List(b.list);
        assert NestedDone(list, i, b).list == list[i := List(b.list)];
      } else if i < |list| && i <= MAX_INDEX {
        assert NestedDone(list, i, b).list[i] == List(b.list);
      }
    }
  }

  function Nested(list: seq<Value>, i: nat): seq<Value> {
    if i < |list| && list[i].List? then list[i].items else []
  }

  function NestedDone(list: seq<Value>, i: nat, inner: ListRes): ListRes {
    var found := |list| > i && list[i].List?;
    var inPlace := if found && |list[i].items| == |inner.list| then list[i := List(inner.list)] else list;
    if inner.err != Ok then ListRes(inPlace, inner.err, inner.rest)
    else var l := SetIndex(inPlace, i, List(inner.list)); ListRes(l.list, l.err, inner.rest)
  }

  lemma {:induction false} NameMeets(data: Tree, level: nat, p: string)
    requires PlainPath(p) && NameLen(p) == |p|
    ensures KeyFates(EndOnly, Key(data, level, Text(p, []), true), L.Key(data, level, Text(p, [])), data, p)
  {
    NameScan(p, KEY_STOPS);
    NameScan(p, L.KEY_STOPS);
    assert p != [] ==> p in Set(data, p, Str([]));
  }

  lemma {:induction false} KeyUnfolds(data: Tree, level: nat, p: string)
    requires PlainPath(p) && NameLen(p) < |p|
    ensures
      var n := NameLen(p);
      var a, b, k, s := Key(data, level, Text(p, []), true), L.Key(data, level, Text(p, [])), p[..n], Text(p[n + 1..], []);
      if p[n] == '.' then a == KeyAtDot(data, k, level, s, true) && b == L.KeyAtDot(data, k, level, s)
      else a == KeyAtBracket(data, k, level, s, true) && b == L.KeyAtBracket(data, k, level, s)
  {
    NameScan(p, KEY_STOPS);
    NameScan(p, L.KEY_STOPS);
  }

  lemma {:induction false} KeyMeets(data: Tree, level: nat, p: string)
    requires PlainPath(p)
    ensures KeyFates(KeyFate(data, level, p), Key(data, level, Text(p, []), true), L.Key(data, level, Text(p, [])), data, p)
    decreases |p|, 1
  {
    var n := NameLen(p);
    if n == |p| {
      NameMeets(data, level, p);
    } else {
      KeyUnfolds(data, level, p);
      if p[n] == '.' {
        DotMeets(data, p[..n], level, p[n + 1..], p);
      } else {
        BracketMeets(data, p[..n], level, p[n + 1..], p);
      }
    }
  }

  lemma {:induction false} DotParts(data: Tree, k: string, level: nat, q: string) returns (a: KeyRes, b: KeyRes)
    requires PlainPath(q) && level + 1 <= MAX_NESTED_NAME_LEVEL && (k in data ==> data[k].Map?)
    ensures KeyAtDot(data, k, level, Text(q, []), true) == DotDone(data, k, a)
    ensures L.KeyAtDot(data, k, level, Text(q, [])) == DotDone(data, k, b)
    ensures KeyFates(KeyFate(EntriesUnder(data, k), level + 1, q), a, b, EntriesUnder(data, k), q)
    decreases |q|, 2
  {
    var inner := EntriesUnder(data, k);
    KeyMeets(inner, level + 1, q);
    a, b := Key(inner, level + 1, Text(q, []), true), L.Key(inner, level + 1, Text(q, []));
  }

  lemma {:induction false} DotMeets(data: Tree, k: string, level: nat, q: string, p: string)
    requires PlainPath(q) && NameLen(p) == |k|
    ensures KeyFates(DotKeyFate(data, k, level, q), KeyAtDot(data, k, level, Text(q, []), true),
                     L.KeyAtDot(data, k, level, Text(q, [])), data, p)
    decreases |q|, 3
  {
    if level + 1 <= MAX_NESTED_NAME_LEVEL && (k in data ==> data[k].Map?) {
      var a, b := DotParts(data, k, level, q);
      DotFate(data, k, KeyFate(EntriesUnder(data, k), level + 1, q), a, b, p, q);
    }
  }

  lemma {:induction false} BracketParts(data: Tree, k: string, level: nat, q: string) returns (a: ListRes, b: ListRes)
    requires PlainPath(q) && IndexAt(q).Some? && (k in data ==> data[k].List?)
    ensures KeyAtBracket(data, k, level, Text(q, []), true) == BracketDone(data, k, a)
    ensures L.KeyAtBracket(data, k, level, Text(q, [])) == BracketDone(data, k, b)
    ensures
      var i, before := IndexAt(q).value, ItemsUnder(data, k);
      var f := ItemFate(before, i, level, AfterIndex(q));
      && ItemFates(f, a, b, before, i)
      && (f == EndOnly ==> i < |before|) && (f == EndOnly || f == DataApart ==> |a.list| == |before|)
    decreases |q|, 2
  {
    var i, rest, before := IndexAt(q).value, AfterIndex(q), ItemsUnder(data, k);
    IndexScan(q);
    BracketUnfold(data, k, level, Text(q, []), Text(q, []));
    ItemMeets(before, i, level, rest);
    a, b := ListItem(before, i, level, Text(rest, []), true), L.ListItem(before, i, level, Text(rest, []));
  }

  lemma {:induction false} BracketRefused(data: Tree, k: string, level: nat, q: string)
    requires PlainPath(q) && (IndexAt(q).None? || (k in data && !data[k].List?))
    ensures
      var a, b := KeyAtBracket(data, k, level, Text(q, []), true), L.KeyAtBracket(data, k, level, Text(q, []));
      a.data == b.data == data && a.err == b.err == Failed
  {
    IndexScan(q);
  }

  lemma {:induction false} BracketMeets(data: Tree, k: string, level: nat, q: string, p: string)
    requires PlainPath(q) && NameLen(p) == |k|
    ensures KeyFates(BracketKeyFate(data, k, level, q), KeyAtBracket(data, k, level, Text(q, []), true),
                     L.KeyAtBracket(data, k, level, Text(q, [])), data, p)
    decreases |q|, 3
  {
    if IndexAt(q).Some? && (k in data ==> data[k].List?) {
      var i := IndexAt(q).value;
      var a, b := BracketParts(data, k, level, q);
      BracketFate(data, k, ItemFate(ItemsUnder(data, k), i, level, AfterIndex(q)), a, b, i, p);
    } else {
      BracketRefused(data, k, level, q);
    }
  }

  lemma {:induction false} ItemMeets(list: seq<Value>, i: int, level: nat, p: string)
    requires PlainPath(p)
    ensures ItemFates(ItemFate(list, i, level, p), ListItem(list, i, level, Text(p, []), true),
                      L.ListItem(list, i, level, Text(p, [])), list, i)
    ensures ItemFate(list, i, level, p) == EndOnly ==> i < |list|
    decreases |p|, 1
  {
    NameScan(p, ITEM_STOPS);
    if i >= 0 && NameLen(p) == 0 && p != [] {
      if p[0] == '.' {
        var inner := if i < |list| && list[i].Map? then list[i].entries else map[];
        KeyMeets(inner, level, p[1..]);
        ItemDotFate(list, i, KeyFate(inner, level, p[1..]), Key(inner, level, Text(p[1..], []), true),
          L.Key(inner, level, Text(p[1..], [])), inner, p[1..]);
      } else {
        NestedMeets(list, i, level, p);
      }
    }
  }

  lemma {:induction false} NestedMeets(list: seq<Value>, i: nat, level: nat, p: string)
    requires PlainPath(p) && p != [] && p[0] == '['
    ensures ItemFates(ItemFate(list, i, level, p), ItemAtBracket(list, i, level, Text(p[1..], []), true),
                      L.ItemAtBracket(list, i, level, Text(p[1..], [])), list, i)
    decreases |p|, 0
  {
    var q := p[1..];
    var inner := Nested(list, i);
    IndexScan(q);
    if IndexAt(q).Some? && (i < |list| ==> list[i].Nil? || list[i].List?) {
      var j, rest := IndexAt(q).value, AfterIndex(q);
      ItemMeets(inner, j, level, rest);
      NestedFate(list, i, ItemFate(inner, j, level, rest), ListItem(inner, j, level, Text(rest, []), true),
        L.ListItem(inner, j, level, Text(rest, [])), j);
    }
  }

  /** With an empty value the two parsers agree if and only if the walk says so: every difference comes
      from a list that is too short, or an index that is too large, on the way to a last name, or from a
      map that stays empty. */
  lemma {:induction false} EmptyValueExactly(data: Tree, p: string)
    requires PlainPath(p)
    ensures L.Parse(data, Text(p, [])) == Parse(data, Text(p, []), true) <==>
              KeyFate(data, 0, p) == Identical || KeyFate(data, 0, p) == EndOnly
  {
    KeyMeets(data, 0, p);
    assert forall d :: Key(d, 0, [], true) == L.Key(d, 0, []) == KeyRes(d, EOF, []);
  }

  /** Names joined by dots, none of them empty after a dot. */
  predicate DottedNames(p: string) {
    '[' !in p && forall i | 0 <= i < |p| && p[i] == '.' :: NameAt(p, i + 1)
  }

  predicate NameAt(p: string, i: nat) {
    i < |p| && p[i] != '.'
  }

  lemma {:induction false} DottedNamesFate(data: Tree, level: nat, p: string)
    requires DottedNames(p)
    ensures KeyFate(data, level, p) == Identical || KeyFate(data, level, p) == EndOnly
    decreases |p|
  {
    var n := NameLen(p);
    if n < |p| {
      var q := p[n + 1..];
      assert NameAt(p, n + 1);
      forall i | 0 <= i < |q| && q[i] == '.'
        ensures NameAt(q, i + 1)
      {
        assert p[n + 1 + i] == '.' && NameAt(p, n + 1 + i + 1);
      }
      DottedNamesFate(EntriesUnder(data, p[..n]), level + 1, q);
    }
  }

  /** Below names alone, an empty value is no trouble, whatever the destination. */
  lemma {:induction false} NamesAgreeOnEmpty(data: Tree, p: string)
    requires PlainPath(p) && DottedNames(p)
    ensures L.Parse(data, Text(p, [])) == Parse(data, Text(p, []), true)
  {
    DottedNamesFate(data, 0, p);
    EmptyValueExactly(data, p);
  }

  lemma {:induction false} ShortListItem()
    ensures ListItem([], 0, 0, ".b=", true) == ListRes([], EOF, [])
    ensures L.ListItem([], 0, 0, ".b=") == ListRes([Map(map["b" := Str("")])], Ok, [])
  {
    assert RunesUntil(".b=", ITEM_STOPS) == Scan([], At('.'), "b=") == L.RunesUntil(".b=", ITEM_STOPS);
    assert RunesUntil("b=", KEY_STOPS) == Scan("b", At('='), []) == L.RunesUntil("b=", L.KEY_STOPS);
  }

  lemma {:induction false} ShortListKey()
    ensures Key(map[], 0, "a[0].b=", true) == KeyAtBracket(map[], "a", 0, "0].b=", true)
    ensures L.Key(map[], 0, "a[0].b=") == L.KeyAtBracket(map[], "a", 0, "0].b=")
    ensures KeyIndex("0].b=") == Index(Some(0), ".b=") == L.KeyIndex("0].b=")
  {
    assert RunesUntil("a[0].b=", KEY_STOPS) == Scan("a", At('['), "0].b=") == L.RunesUntil("a[0].b=", L.KEY_STOPS);
    assert RunesUntil("0].b=", INDEX_STOPS) == Scan("0", At(']'), ".b=") == L.RunesUntil("0].b=", INDEX_STOPS);
    assert Atoi("0") == Some(0);
  }

  lemma {:induction false} ShortListLine()
    ensures Parse(map[], "a[0].b=", true) == Outcome(map["a" := List([])], true)
    ensures L.Parse(map[], "a[0].b=") == Outcome(map["a" := List([Map(map["b" := Str("")])])], true)
  {
    ShortListKey();
    ShortListItem();
    BracketUnfold(map[], "a", 0, "0].b=", "0].b=");
  }

  lemma {:induction false} EmptyMapLine()
    ensures Parse(map[], "a.=", true) == Outcome(map[], true)
    ensures L.Parse(map[], "a.=") == Outcome(map[], false)
  {
    assert RunesUntil("a.=", KEY_STOPS) == Scan("a", At('.'), "=") == L.RunesUntil("a.=", L.KEY_STOPS);
    assert RunesUntil("=", KEY_STOPS) == Scan([], At('='), []) == L.RunesUntil("=", L.KEY_STOPS);
  }

  /** The two ways to differ, each on a whole line: below an index past the end of its list the string-mode
      parser drops what the literal parser stores, and a map that stays empty fails the literal parser
      only. */
  lemma {:induction false} EmptyValueDiffers()
    ensures Parse(map[], "a[0].b=", true) == Outcome(map["a" := List([])], true)
    ensures L.Parse(map[], "a[0].b=") == Outcome(map["a" := List([Map(map["b" := Str("")])])], true)
    ensures Parse(map[], "a.=", true) == Outcome(map[], true)
    ensures L.Parse(map[], "a.=") == Outcome(map[], false)
  {
    ShortListLine();
    EmptyMapLine();
  }
}
