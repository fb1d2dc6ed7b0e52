/** The literal parser of pkg/strvals/literal_parser.go: no escapes, no value lists, and the value runs
    to the end of the line. */
module StrvalsLiteral {
  import opened Decimal
  import opened Options
  import opened StrvalsValues
  import P = StrvalsParser

  const KEY_STOPS: set<char> := {'=', '[', '.'}

  function RunesUntil(s: string, stops: set<char>): (r: P.Scan)
    ensures |r.rest| <= |s|
    ensures r.stop.At? ==> r.stop.c in stops && |r.rest| < |s|
    ensures r.stop.End? ==> r.rest == []
  {
    if s == [] then P.Scan([], P.End, [])
    else if s[0] in stops then P.Scan([], P.At(s[0]), s[1..])
    else var r := RunesUntil(s[1..], stops); P.Scan([s[0]] + r.text, r.stop, r.rest)
  }

  function KeyIndex(s: string): (r: P.Index)
    ensures r.i.Some? ==> |r.rest| < |s|
  {
    var k := RunesUntil(s, P.INDEX_STOPS);
    P.Index(if k.stop.End? then None else Atoi(k.text), k.rest)
  }

  function Key(data: Tree, level: nat, s: string): (r: P.KeyRes)
    ensures |r.rest| <= |s|
    ensures r.err == Ok ==> |r.rest| < |s|
    ensures r.err != Panicked
    decreases |s|, 0
  {
    var k := RunesUntil(s, KEY_STOPS);
    match k.stop
    case End => P.KeyRes(data, if k.text == [] then EOF else Failed, k.rest)
    case At(c) =>
      if c == '=' then P.KeyRes(Set(data, k.text, Str(RunesUntil(k.rest, {}).text)), Ok, [])
      else if c == '.' then KeyAtDot(data, k.text, level, k.rest)
      else KeyAtBracket(data, k.text, level, k.rest)
  }

  function KeyAtDot(data: Tree, k: string, level: nat, s: string): (r: P.KeyRes)
    ensures |r.rest| <= |s|
    ensures r.err == Ok ==> |r.rest| < |s|
    ensures r.err != Panicked
    decreases |s|, 1
  {
    if level + 1 > MAX_NESTED_NAME_LEVEL || (k in data && !data[k].Map?) then P.KeyRes(data, Failed, s)
    else
      var inner := Key(if k in data then data[k].entries else map[], level + 1, s);
      if inner.err == Ok && inner.data == map[] then P.KeyRes(data, Failed, inner.rest)
      else P.KeyRes(P.StoreMap(data, k, inner.data), inner.err, inner.rest)
  }

  function KeyAtBracket(data: Tree, k: string, level: nat, s: string): (r: P.KeyRes)
    ensures |r.rest| <= |s|
    ensures r.err == Ok ==> |r.rest| < |s|
    ensures r.err != Panicked
    decreases |s|, 1
  {
    var idx := KeyIndex(s);
    if idx.i.None? || (k in data && !data[k].List?) then P.KeyRes(data, Failed, idx.rest)
    else
      var before := if k in data then data[k].items else [];
      var item := ListItem(before, idx.i.value, level, idx.rest);
      if item.err == Panicked then P.KeyRes(data, Failed, item.rest)
      else P.KeyRes(P.StoreList(data, k, before, item.list), item.err, item.rest)
  }

  function ListItem(list: seq<Value>, i: int, level: nat, s: string): (r: P.ListRes)
    ensures |r.rest| <= |s|
    ensures r.err == Ok ==> |r.rest| < |s|
    decreases |s|, 0
  {
    if i < 0 then P.ListRes(list, Failed, s)
    else
      var k := RunesUntil(s, P.ITEM_STOPS);
      if k.text != [] then P.ListRes(list, Failed, k.rest)
      else match k.stop
        case End => P.ListRes(list, EOF, k.rest)
        case At(c) =>
          if c == '=' then
            var l := SetIndex(list, i, Str(RunesUntil(k.rest, {}).text)); P.ListRes(l.list, l.err, [])
          else if c == '.' then ItemAtDot(list, i, level, k.rest)
          else ItemAtBracket(list, i, level, k.rest)
  }

  function ItemAtDot(list: seq<Value>, i: nat, level: nat, s: string): (r: P.ListRes)
    ensures |r.rest| <= |s|
    ensures r.err == Ok ==> |r.rest| < |s|
    decreases |s|, 1
  {
    var inner := Key(if |list| > i && list[i].Map? then list[i].entries else map[], level, s);
    var inPlace := if |list| > i then list[i := Map(inner.data)] else list;
    if inner.err != Ok then P.ListRes(inPlace, inner.err, inner.rest)
    else var l := SetIndex(inPlace, i, Map(inner.data)); P.ListRes(l.list, l.err, inner.rest)
  }

  function ItemAtBracket(list: seq<Value>, i: nat, level: nat, s: string): (r: P.ListRes)
    ensures |r.rest| <= |s|
    ensures r.err == Ok ==> |r.rest| < |s|
    decreases |s|, 1
  {
    var idx := KeyIndex(s);
    if idx.i.None? then P.ListRes(list, Failed, idx.rest)
    else if |list| > i && !list[i].Nil? && !list[i].List? then P.ListRes(list, Panicked, idx.rest)
    else
      var found := |list| > i && list[i].List?;
      var inner := ListItem(if found then list[i].items else [], idx.i.value, level, idx.rest);
      var inPlace := if found && |list[i].items| == |inner.list| then list[i := List(inner.list)] else list;
      if inner.err != Ok then P.ListRes(inPlace, inner.err, inner.rest)
      else var l := SetIndex(inPlace, i, List(inner.list)); P.ListRes(l.list, l.err, inner.rest)
  }

  /** ParseLiteralInto. */
  function Parse(data: Tree, s: string): P.Outcome
    decreases |s|
  {
    var r := Key(data, 0, s);
    if r.err == Ok then Parse(r.data, r.rest) else P.Outcome(r.data, r.err == EOF)
  }

  /** The literal parser as the object that consumes its buffer. */
  class LiteralParser {
    var sc: string
    var data: Tree

    constructor (line: string, dest: Tree)
      ensures sc == line && data == dest
    {
      sc, data := line, dest;
    }

    method ScanUntil(stops: set<char>) returns (text: string, stop: P.Stop)
      modifies this`sc
      ensures P.Scan(text, stop, sc) == RunesUntil(old(sc), stops)
    {
      text := [];
      while sc != []
        invariant RunesUntil(old(sc), stops) == RunesUntil(sc, stops).(text := text + RunesUntil(sc, stops).text)
      {
        var r := sc[0];
        sc := sc[1..];
        if r in stops {
          return text, P.At(r);
        }
        text := text + [r];
      }
      stop := P.End;
    }

    method ReadIndex() returns (i: Option<int>)
      modifies this`sc
      ensures P.Index(i, sc) == KeyIndex(old(sc))
    {
      var text, stop := ScanUntil(P.INDEX_STOPS);
      i := if stop.End? then None else Atoi(text);
    }

    method ReadKey(dest: Tree, nestedNameLevel: nat) returns (dest': Tree, err: Err)
      modifies this`sc
      ensures P.KeyRes(dest', err, sc) == Key(dest, nestedNameLevel, old(sc))
      decreases |sc|
    {
      dest' := dest;
      var k, stop := ScanUntil(KEY_STOPS);
      if stop.End? {
        err := if k == [] then EOF else Failed;
      } else if stop.c == '=' {
        var value, _ := ScanUntil({});
        dest', err := Set(dest, k, Str(value)), Ok;
      } else if stop.c == '.' {
        if nestedNameLevel + 1 > MAX_NESTED_NAME_LEVEL || (k in dest && !dest[k].Map?) {
          return dest, Failed;
        }
        var inner, e := ReadKey(if k in dest then dest[k].entries else map[], nestedNameLevel + 1);
        if e == Ok && inner == map[] {
          return dest, Failed;
        }
        dest', err := P.StoreMap(dest, k, inner), e;
      } else {
        var i := ReadIndex();
        if i.None? || (k in dest && !dest[k].List?) {
          return dest, Failed;
        }
        var before := if k in dest then dest[k].items else [];
        var list, e := ReadItem(before, i.value, nestedNameLevel);
        if e == Panicked {
          return dest, Failed;
        }
        dest', err := P.StoreList(dest, k, before, list), e;
      }
    }

    method ReadItem(list: seq<Value>, i: int, nestedNameLevel: nat) returns (list': seq<Value>, err: Err)
      modifies this`sc
      ensures P.ListRes(list', err, sc) == ListItem(list, i, nestedNameLevel, old(sc))
      decreases |sc|
    {
      if i < 0 {
        return list, Failed;
      }
      var k, stop := ScanUntil(P.ITEM_STOPS);
      if k != [] {
        return list, Failed;
      }
      if stop.End? {
        return list, EOF;
      }
      var inPlace, v, e := list, Nil, Ok;
      if stop.c == '=' {
        var value, _ := ScanUntil({});
        v := Str(value);
      } else if stop.c == '.' {
        var inner;
        inner, e := ReadKey(if |list| > i && list[i].Map? then list[i].entries else map[], nestedNameLevel);
        v := Map(inner);
        inPlace := if |list| > i then list[i := v] else list;
      } else {
        var nextI := ReadIndex();
        if nextI.None? {
          return list, Failed;
        }
        if |list| > i && !list[i].Nil? && !list[i].List? {
          return list, Panicked;
        }
        var found := |list| > i && list[i].List?;
        var inner;
        inner, e := ReadItem(if found then list[i].items else [], nextI.value, nestedNameLevel);
        v := List(inner);
        inPlace := if found && |list[i].items| == |inner| then list[i := v] else list;
      }
      if e != Ok {
        return inPlace, e;
      }
      var l := SetIndex(inPlace, i, v);
      return l.list, l.err;
    }

    method ParseLine() returns (ok: bool)
      modifies this
      ensures P.Outcome(data, ok) == Parse(old(data), old(sc))
    {
      while true
        invariant Parse(data, sc) == Parse(old(data), old(sc))
        decreases |sc|
      {
        var err;
        data, err := ReadKey(data, 0);
        if err != Ok {
          return err == EOF;
        }
      }
    }
  }
}
