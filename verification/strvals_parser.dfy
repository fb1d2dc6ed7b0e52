/** The set-line parser of pkg/strvals/parser.go as functions on the unread input; module
    StrvalsMachine has the class that consumes its buffer. */
module StrvalsParser {
  import opened Decimal
  import opened Options
  import opened StrvalsValues

  const KEY_STOPS: set<char> := {'=', '[', ',', '.'}
  const ITEM_STOPS: set<char> := {'[', '.', '='}
  const INDEX_STOPS: set<char> := {']'}
  const VALUE_STOPS: set<char> := {','}
  const ELEMENT_STOPS: set<char> := {',', '}'}

  /** Where a scan stopped: at a stop rune, which is consumed, or at the end of the input. */
  datatype Stop = At(c: char) | End
  datatype Scan = Scan(text: string, stop: Stop, rest: string)

  function RunesUntil(s: string, stops: set<char>): (r: Scan)
    ensures |r.rest| <= |s|
    ensures r.stop.At? ==> r.stop.c in stops && |r.text| + 1 + |r.rest| <= |s|
    ensures r.stop.End? ==> r.rest == []
  {
    if s == [] then Scan([], End, [])
    else if s[0] in stops then Scan([], At(s[0]), s[1..])
    else if s[0] == '\\' then
      if |s| == 1 then Scan([], End, [])
      else var r := RunesUntil(s[2..], stops); Scan([s[1]] + r.text, r.stop, r.rest)
    else var r := RunesUntil(s[1..], stops); Scan([s[0]] + r.text, r.stop, r.rest)
  }

  datatype Index = Index(i: Option<int>, rest: string)

  function KeyIndex(s: string): (r: Index)
    ensures r.i.Some? ==> |r.rest| < |s|
  {
    var k := RunesUntil(s, INDEX_STOPS);
    Index(if k.stop.End? then None else Atoi(k.text), k.rest)
  }

  /** The three ways valList can end: a brace list, no brace list (nothing consumed), or the end of
      the input; a brace list that is not closed is an error. */
  datatype Elements =
    | Elements(vals: seq<Value>, rest: string)
    | NotList
    | NoInput
    | Unclosed

  function ElementsFrom(s: string, list: seq<Value>, st: bool): (r: Elements)
    ensures r.Elements? ==> |r.rest| < |s| && |r.vals| <= |list| + |s|
    ensures r.Elements? || r.Unclosed?
    decreases |s|
  {
    var k := RunesUntil(s, ELEMENT_STOPS);
    if k.stop.End? then Unclosed
    else if k.stop.c == '}' then
      Elements(list + [TypedVal(k.text, st)], if k.rest != [] && k.rest[0] == ',' then k.rest[1..] else k.rest)
    else ElementsFrom(k.rest, list + [TypedVal(k.text, st)], st)
  }

  function ValList(s: string, st: bool): (r: Elements)
    ensures r.Elements? ==> |r.rest| < |s| && |r.vals| <= |s|
    ensures r.NotList? ==> s != []
  {
    if s == [] then NoInput
    else if s[0] != '{' then NotList
    else ElementsFrom(s[1..], [], st)
  }

  datatype KeyRes = KeyRes(data: Tree, err: Err, rest: string)
  datatype ListRes = ListRes(list: seq<Value>, err: Err, rest: string)

  /** The tree after `list = data[k]; list = f(list); set(data, k, list)`. An empty key is not set,
      but a list found under it was updated in place unless it had to be reallocated. */
  function StoreList(data: Tree, k: string, before: seq<Value>, list: seq<Value>): Tree {
    if k != [] || (k in data && |before| == |list|) then data[k := List(list)] else data
  }

  /** The same for a map, which is always updated in place when it was found under k. */
  function StoreMap(data: Tree, k: string, inner: Tree): Tree {
    if inner != map[] && (k != [] || k in data) then data[k := Map(inner)] else data
  }

  function Key(data: Tree, level: nat, s: string, st: bool): (r: KeyRes)
    ensures |r.rest| <= |s|
    ensures r.err == Ok ==> |r.rest| < |s|
    ensures r.err != Panicked
    decreases |s|, 0
  {
    var k := RunesUntil(s, KEY_STOPS);
    match k.stop
    case End => KeyRes(data, if k.text == [] then EOF else Failed, k.rest)
    case At(c) =>
      if c == '[' then KeyAtBracket(data, k.text, level, k.rest, st)
      else if c == '=' then KeyAtEquals(data, k.text, k.rest, st)
      else if c == ',' then KeyRes(Set(data, k.text, Str("")), Failed, k.rest)
      else KeyAtDot(data, k.text, level, k.rest, st)
  }

  function KeyAtBracket(data: Tree, k: string, level: nat, s: string, st: bool): (r: KeyRes)
    ensures |r.rest| <= |s|
    ensures r.err == Ok ==> |r.rest| < |s|
    ensures r.err != Panicked
    decreases |s|, 1
  {
    var idx := KeyIndex(s);
    if idx.i.None? || (k in data && !data[k].List?) then KeyRes(data, Failed, idx.rest)
    else
      var before := if k in data then data[k].items else [];
      var item := ListItem(before, idx.i.value, level, idx.rest, st);
      if item.err == Panicked then KeyRes(data, Failed, item.rest)
      else KeyRes(StoreList(data, k, before, item.list), item.err, item.rest)
  }

  function KeyAtEquals(data: Tree, k: string, s: string, st: bool): (r: KeyRes)
    ensures |r.rest| <= |s|
    ensures r.err != Panicked
  {
    match ValList(s, st)
    case Elements(vals, rest) => KeyRes(Set(data, k, List(vals)), Ok, rest)
    case NoInput => KeyRes(Set(data, k, Str("")), EOF, s)
    case NotList =>
      var v := RunesUntil(s, VALUE_STOPS);
      KeyRes(Set(data, k, TypedVal(v.text, st)), Ok, v.rest)
    case Unclosed => KeyRes(data, Failed, [])
  }

  function KeyAtDot(data: Tree, k: string, level: nat, s: string, st: bool): (r: KeyRes)
    ensures |r.rest| <= |s|
    ensures r.err == Ok ==> |r.rest| < |s|
    ensures r.err != Panicked
    decreases |s|, 1
  {
    if level + 1 > MAX_NESTED_NAME_LEVEL || (k in data && !data[k].Map?) then KeyRes(data, Failed, s)
    else
      var inner := Key(if k in data then data[k].entries else map[], level + 1, s, st);
      if inner.err == Ok && inner.data == map[] then KeyRes(data, Failed, inner.rest)
      else KeyRes(StoreMap(data, k, inner.data), inner.err, inner.rest)
  }

  function ListItem(list: seq<Value>, i: int, level: nat, s: string, st: bool): (r: ListRes)
    ensures |r.rest| <= |s|
    ensures r.err == Ok ==> |r.rest| < |s|
    ensures r.err != Ok ==> |r.list| == |list|
    decreases |s|, 0
  {
    if i < 0 then ListRes(list, Failed, s)
    else
      var k := RunesUntil(s, ITEM_STOPS);
      if k.text != [] then ListRes(list, Failed, k.rest)
      else match k.stop
        case End => ListRes(list, EOF, k.rest)
        case At(c) =>
          if c == '=' then ItemAtEquals(list, i, k.rest, st)
          else if c == '[' then ItemAtBracket(list, i, level, k.rest, st)
          else ItemAtDot(list, i, level, k.rest, st)
  }

  function ItemAtEquals(list: seq<Value>, i: nat, s: string, st: bool): (r: ListRes)
    ensures |r.rest| <= |s|
    ensures r.err != Ok ==> |r.list| == |list|
  {
    match ValList(s, st)
    case Elements(vals, rest) => var l := SetIndex(list, i, List(vals)); ListRes(l.list, l.err, rest)
    case NoInput => var l := SetIndex(list, i, Str("")); ListRes(l.list, l.err, s)
    case NotList =>
      var v := RunesUntil(s, VALUE_STOPS);
      var l := SetIndex(list, i, TypedVal(v.text, st));
      ListRes(l.list, l.err, v.rest)
    case Unclosed => ListRes(list, Failed, [])
  }

  /** A nested list. `inPlace` is the outer list as the shared backing array leaves it, whatever the
      outcome: an inner list that was there and did not have to grow was updated in place. */
  function ItemAtBracket(list: seq<Value>, i: nat, level: nat, s: string, st: bool): (r: ListRes)
    ensures |r.rest| <= |s|
    ensures r.err == Ok ==> |r.rest| < |s|
    ensures r.err != Ok ==> |r.list| == |list|
    decreases |s|, 1
  {
    var idx := KeyIndex(s);
    if idx.i.None? then ListRes(list, Failed, idx.rest)
    else if |list| > i && !list[i].Nil? && !list[i].List? then ListRes(list, Panicked, idx.rest)
    else
      var found := |list| > i && list[i].List?;
      var inner := ListItem(if found then list[i].items else [], idx.i.value, level, idx.rest, st);
      var inPlace := if found && |list[i].items| == |inner.list| then list[i := List(inner.list)] else list;
      if inner.err != Ok then ListRes(inPlace, inner.err, inner.rest)
      else var l := SetIndex(inPlace, i, List(inner.list)); ListRes(l.list, l.err, inner.rest)
  }

  function ItemAtDot(list: seq<Value>, i: nat, level: nat, s: string, st: bool): (r: ListRes)
    ensures |r.rest| <= |s|
    ensures r.err == Ok ==> |r.rest| < |s|
    ensures r.err != Ok ==> |r.list| == |list|
    decreases |s|, 1
  {
    var inner := Key(if |list| > i && list[i].Map? then list[i].entries else map[], level, s, st);
    var inPlace := if |list| > i then list[i := Map(inner.data)] else list;
    if inner.err != Ok then ListRes(inPlace, inner.err, inner.rest)
    else var l := SetIndex(inPlace, i, Map(inner.data)); ListRes(l.list, l.err, inner.rest)
  }

  datatype Outcome = Outcome(data: Tree, ok: bool)

  /** ParseInto (st false) and ParseIntoString (st true). */
  function Parse(data: Tree, s: string, st: bool): Outcome
    decreases |s|
  {
    var r := Key(data, 0, s, st);
    if r.err == Ok then Parse(r.data, r.rest, st) else Outcome(r.data, r.err == EOF)
  }
}
