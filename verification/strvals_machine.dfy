/** The parser of pkg/strvals/parser.go as an object: the buffer `sc` is consumed rune by rune and the
    destination is reassigned as assignments are read. Every method is proved equal to the function of
    the same name on the unread input. */
module StrvalsMachine {
  import opened Decimal
  import opened Options
  import opened StrvalsValues
  import P = StrvalsParser

  class Parser {
    var sc: string
    var data: Tree
    const st: bool

    constructor (line: string, dest: Tree, st: bool)
      ensures sc == line && data == dest && this.st == st
    {
      sc, data, this.st := line, dest, st;
    }

    method ReadRune() returns (r: Option<char>)
      modifies this`sc
      ensures old(sc) == [] ==> r == None && sc == []
      ensures old(sc) != [] ==> r == Some(old(sc)[0]) && sc == old(sc)[1..]
    {
      if sc == [] {
        return None;
      }
      r, sc := Some(sc[0]), sc[1..];
    }

    method RunesUntil(stops: set<char>) returns (text: string, stop: P.Stop)
      modifies this`sc
      ensures P.Scan(text, stop, sc) == P.RunesUntil(old(sc), stops)
    {
      text := [];
      while true
        invariant P.RunesUntil(old(sc), stops)
               == P.RunesUntil(sc, stops).(text := text + P.RunesUntil(sc, stops).text)
        decreases |sc|
      {
        var r := ReadRune();
        if r.None? {
          return text, P.End;
        } else if r.value in stops {
          return text, P.At(r.value);
        } else if r.value == '\\' {
          var next := ReadRune();
          if next.None? {
            return text, P.End;
          }
          text := text + [next.value];
        } else {
          text := text + [r.value];
        }
      }
    }

    method KeyIndex() returns (i: Option<int>)
      modifies this`sc
      ensures P.Index(i, sc) == P.KeyIndex(old(sc))
    {
      var text, stop := RunesUntil(P.INDEX_STOPS);
      i := if stop.End? then None else Atoi(text);
    }

    /** The rest of the result is what the buffer still holds. */
    method ValList() returns (r: P.Elements)
      modifies this`sc
      ensures r == P.ValList(old(sc), st)
      ensures sc == if r.Elements? then r.rest else if r.Unclosed? then [] else old(sc)
    {
      var first := ReadRune();
      if first.None? {
        return P.NoInput;
      }
      if first.value != '{' {
        sc := [first.value] + sc;
        return P.NotList;
      }
      var list := [];
      while true
        invariant P.ValList(old(sc), st) == P.ElementsFrom(sc, list, st)
        decreases |sc|
      {
        var text, stop := RunesUntil(P.ELEMENT_STOPS);
        if stop.End? {
          return P.Unclosed;
        }
        list := list + [TypedVal(text, st)];
        if stop.c == '}' {
          var next := ReadRune();
          if next.Some? && next.value != ',' {
            sc := [next.value] + sc;
          }
          return P.Elements(list, sc);
        }
      }
    }

    method Key(dest: Tree, nestedNameLevel: nat) returns (dest': Tree, err: Err)
      modifies this`sc
      ensures P.KeyRes(dest', err, sc) == P.Key(dest, nestedNameLevel, old(sc), st)
      decreases |sc|
    {
      dest' := dest;
      var k, stop := RunesUntil(P.KEY_STOPS);
      if stop.End? {
        err := if k == [] then EOF else Failed;
      } else if stop.c == '[' {
        var i := KeyIndex();
        if i.None? || (k in dest && !dest[k].List?) {
          return dest, Failed;
        }
        var before := if k in dest then dest[k].items else [];
        var list, e := ListItem(before, i.value, nestedNameLevel);
        if e == Panicked {
          return dest, Failed;
        }
        dest', err := P.StoreList(dest, k, before, list), e;
      } else if stop.c == '=' {
        var vl := ValList();
        match vl {
          case Elements(vals, _) => dest', err := Set(dest, k, List(vals)), Ok;
          case NoInput => dest', err := Set(dest, k, Str("")), EOF;
          case NotList =>
            var rs, _ := RunesUntil(P.VALUE_STOPS);
            dest', err := Set(dest, k, TypedVal(rs, st)), Ok;
          case Unclosed => err := Failed;
        }
      } else if stop.c == ',' {
        dest', err := Set(dest, k, Str("")), Failed;
      } else {
        if nestedNameLevel + 1 > MAX_NESTED_NAME_LEVEL || (k in dest && !dest[k].Map?) {
          return dest, Failed;
        }
        var inner, e := Key(if k in dest then dest[k].entries else map[], nestedNameLevel + 1);
        if e == Ok && inner == map[] {
          return dest, Failed;
        }
        dest', err := P.StoreMap(dest, k, inner), e;
      }
    }

    method ListItem(list: seq<Value>, i: int, nestedNameLevel: nat) returns (list': seq<Value>, err: Err)
      modifies this`sc
      ensures P.ListRes(list', err, sc) == P.ListItem(list, i, nestedNameLevel, old(sc), st)
      decreases |sc|
    {
      if i < 0 {
        return list, Failed;
      }
      var k, stop := RunesUntil(P.ITEM_STOPS);
      if k != [] {
        return list, Failed;
      }
      if stop.End? {
        return list, EOF;
      }
      if stop.c == '=' {
        var vl := ValList();
        var v := Nil;
        match vl {
          case Elements(vals, _) => v := List(vals);
          case NoInput => v := Str("");
          case NotList =>
            var rs, _ := RunesUntil(P.VALUE_STOPS);
            v := TypedVal(rs, st);
          case Unclosed => return list, Failed;
        }
        var l := SetIndex(list, i, v);
        return l.list, l.err;
      }
      var inPlace, v, e;
      if stop.c == '[' {
        var nextI := KeyIndex();
        if nextI.None? {
          return list, Failed;
        }
        if |list| > i && !list[i].Nil? && !list[i].List? {
          return list, Panicked;
        }
        var found := |list| > i && list[i].List?;
        var inner;
        inner, e := ListItem(if found then list[i].items else [], nextI.value, nestedNameLevel);
        v := List(inner);
        inPlace := if found && |list[i].items| == |inner| then list[i := v] else list;
      } else {
        var inner;
        inner, e := Key(if |list| > i && list[i].Map? then list[i].entries else map[], nestedNameLevel);
        v := Map(inner);
        inPlace := if |list| > i then list[i := v] else list;
      }
      if e != Ok {
        return inPlace, e;
      }
      var l := SetIndex(inPlace, i, v);
      return l.list, l.err;
    }

    method Parse() returns (ok: bool)
      modifies this
      ensures P.Outcome(data, ok) == P.Parse(old(data), old(sc), st)
    {
      while true
        invariant P.Parse(data, sc, st) == P.Parse(old(data), old(sc), st)
        decreases |sc|
      {
        var err;
        data, err := Key(data, 0);
        if err != Ok {
          return err == EOF;
        }
      }
    }
  }
}
