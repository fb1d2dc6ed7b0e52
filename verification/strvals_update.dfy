/** What a set line means: each assignment `name.sub[3]=value` replaces the slot at its path. The
    parser is proved to perform exactly that update on every printed line. */
module StrvalsUpdate {
  import opened Decimal
  import opened Options
  import opened StrvalsValues
  import opened StrvalsParser

  /** One step below the leading name of a path. */
  datatype Seg = Name(name: string) | Idx(i: nat)

  /** What stands after the '=': one text, or texts in braces. */
  datatype Content = Scalar(text: string) | Braces(texts: seq<string>)

  datatype Assignment = Assignment(head: string, path: seq<Seg>, value: Content)

  /** A text must not be empty, a brace list must have an element; its elements may be empty. */
  predicate Proper(c: Content) {
    if c.Scalar? then c.text != [] else c.texts != []
  }

  predicate WellFormed(a: Assignment) {
    a.head != [] && Proper(a.value) && NamesNonEmpty(a.path)
  }

  /** The values of the texts, in their order. */
  function TypedAll(texts: seq<string>, st: bool): (vals: seq<Value>)
    ensures |vals| == |texts| && forall i | 0 <= i < |texts| :: vals[i] == TypedVal(texts[i], st)
  {
    seq(|texts|, i requires 0 <= i < |texts| => TypedVal(texts[i], st))
  }

  function TypedContent(c: Content, st: bool): Value {
    match c
    case Scalar(text) => TypedVal(text, st)
    case Braces(texts) => List(TypedAll(texts, st))
  }

  predicate NamesNonEmpty(path: seq<Seg>) {
    path != [] ==> (path[0].Name? ==> path[0].name != []) && NamesNonEmpty(path[1..])
  }

  /* ---------- the reference update ---------- */

  /** The content of a slot after v is stored at `path` below it; None is a refusal. A slot under a
      name may only be descended into when it is absent or of the right kind, a list element that is
      not a map is replaced by one, and only a name below a name counts towards the nesting limit. */
  function Put(slot: Option<Value>, path: seq<Seg>, v: Value, level: nat, inList: bool): Option<Value>
    decreases |path|
  {
    if path == [] then Some(v)
    else match path[0]
      case Name(n) =>
        if !inList && (level + 1 > MAX_NESTED_NAME_LEVEL || (slot.Some? && !slot.value.Map?)) then None
        else
          var base := EntriesOf(slot);
          var sub := Put(Lookup(base, n), path[1..], v, if inList then level else level + 1, false);
          if sub.None? then None else Some(Map(base[n := sub.value]))
      case Idx(i) =>
        if i > MAX_INDEX then None
        else if slot.Some? && !slot.value.List? && !(inList && slot.value.Nil?) then None
        else
          var base := ItemsOf(slot);
          var sub := Put(ElementAt(base, i), path[1..], v, level, true);
          if sub.None? then None else Some(List(Grow(base, i)[i := sub.value]))
  }

  function EntriesOf(slot: Option<Value>): Tree {
    if slot.Some? && slot.value.Map? then slot.value.entries else map[]
  }

  function ItemsOf(slot: Option<Value>): seq<Value> {
    if slot.Some? && slot.value.List? then slot.value.items else []
  }

  function Lookup(m: Tree, n: string): Option<Value> {
    if n in m then Some(m[n]) else None
  }

  function ElementAt(l: seq<Value>, i: nat): Option<Value> {
    if i < |l| then Some(l[i]) else None
  }

  function Assign(m: Tree, a: Assignment, st: bool): Option<Tree> {
    var r := Put(Lookup(m, a.head), a.path, TypedContent(a.value, st), 0, false);
    if r.None? then None else Some(m[a.head := r.value])
  }

  function AssignAll(m: Tree, line: seq<Assignment>, st: bool): Option<Tree>
    decreases |line|
  {
    if line == [] then Some(m)
    else
      var r := Assign(m, line[0], st);
      if r.None? then None else AssignAll(r.value, line[1..], st)
  }

  /* ---------- the printer ---------- */

  const SPECIAL: set<char> := {'=', '[', ']', ',', '.', '{', '}', '\\'}

  function EscapeRune(c: char): (e: string)
    ensures e != [] && e[0] != '{'
  {
    if c in SPECIAL then ['\\', c] else [c]
  }

  function Escape(s: string): string {
    if s == [] then [] else EscapeRune(s[0]) + Escape(s[1..])
  }

  function ContentText(value: Content, tail: string): string {
    match value
    case Scalar(text) => Escape(text) + tail
    case Braces(texts) => ['{'] + ElementsText(texts, tail)
  }

  /** The elements from here to the closing brace, and whatever follows. */
  function ElementsText(texts: seq<string>, tail: string): string {
    if texts == [] then ['}'] + tail
    else Escape(texts[0]) + (if |texts| == 1 then ['}'] + tail else [','] + ElementsText(texts[1..], tail))
  }

  /** The text of a path below its head, its value and whatever follows. */
  function PathText(path: seq<Seg>, value: Content, tail: string): string {
    if path == [] then ['='] + ContentText(value, tail)
    else match path[0]
      case Name(n) => ['.'] + (Escape(n) + PathText(path[1..], value, tail))
      case Idx(i) => ['['] + (Dec(i) + ([']'] + PathText(path[1..], value, tail)))
  }

  function Line(line: seq<Assignment>): string
    decreases |line|, 0
  {
    if line == [] then []
    else Escape(line[0].head) + PathText(line[0].path, line[0].value, Tail(line[1..]))
  }

  function Tail(line: seq<Assignment>): string
    decreases |line|, 1
  {
    if line == [] then [] else [','] + Line(line)
  }

  /* ---------- the parser reads the printer's text back ---------- */

  lemma {:induction false} ScanRune(c: char, t: string, stops: set<char>)
    requires stops <= SPECIAL && '\\' !in stops
    ensures
      var r, u := RunesUntil(EscapeRune(c) + t, stops), RunesUntil(t, stops);
      r == Scan([c] + u.text, u.stop, u.rest)
  {
    if c in SPECIAL {
      assert (['\\', c] + t)[2..] == t;
    } else {
      assert ([c] + t)[1..] == t;
    }
  }

  lemma {:induction false} ScanEscaped(s: string, c: char, rest: string, stops: set<char>)
    requires c in stops && stops <= SPECIAL && '\\' !in stops
    ensures RunesUntil(Escape(s) + ([c] + rest), stops) == Scan(s, At(c), rest)
  {
    if s == [] {
      assert Escape(s) + ([c] + rest) == [c] + rest;
    } else {
      var tail := Escape(s[1..]) + ([c] + rest);
      assert Escape(s) + ([c] + rest) == EscapeRune(s[0]) + tail;
      ScanEscaped(s[1..], c, rest, stops);
      ScanRune(s[0], tail, stops);
      assert s == [s[0]] + s[1..];
    }
  }

  lemma {:induction false} ScanEscapedToEnd(s: string, stops: set<char>)
    requires stops <= SPECIAL && '\\' !in stops
    ensures RunesUntil(Escape(s), stops) == Scan(s, End, [])
  {
    if s != [] {
      ScanEscapedToEnd(s[1..], stops);
      ScanRune(s[0], Escape(s[1..]), stops);
      assert s == [s[0]] + s[1..];
    }
  }

  lemma {:induction false} DigitsAreEscaped(s: string)
    requires AllDigits(s)
    ensures Escape(s) == s
  {
    if s != [] {
      assert IsDigit(s[0]);
      DigitsAreEscaped(s[1..]);
    }
  }

  lemma IndexText(i: nat, rest: string)
    ensures KeyIndex(Dec(i) + ([']'] + rest)) == Index(if i < INT64_LIMIT then Some(i) else None, rest)
  {
    DigitsAreEscaped(Dec(i));
    ScanEscaped(Dec(i), ']', rest, INDEX_STOPS);
    AtoiDec(i);
  }

  /** The text after a value is empty or starts the next assignment. */
  predicate AfterValue(tail: string) {
    tail == [] || tail[0] == ','
  }

  function Consumed(tail: string): string
  {
    if tail == [] then [] else tail[1..]
  }

  lemma ValueText(value: string, tail: string, st: bool)
    requires value != [] && AfterValue(tail)
    ensures ValList(Escape(value) + tail, st) == NotList
    ensures var v := RunesUntil(Escape(value) + tail, VALUE_STOPS); v.text == value && v.rest == Consumed(tail)
  {
    assert Escape(value)[0] != '{';
    if tail == [] {
      ScanEscapedToEnd(value, VALUE_STOPS);
      assert Escape(value) + tail == Escape(value);
    } else {
      ScanEscaped(value, ',', tail[1..], VALUE_STOPS);
      assert tail == [','] + tail[1..];
    }
  }

  lemma KeyText(m: Tree, level: nat, name: string, c: char, rest: string, st: bool)
    requires c == '=' || c == '.' || c == '['
    ensures Key(m, level, Escape(name) + ([c] + rest), st)
         == if c == '=' then KeyAtEquals(m, name, rest, st)
            else if c == '.' then KeyAtDot(m, name, level, rest, st)
            else KeyAtBracket(m, name, level, rest, st)
  {
    ScanEscaped(name, c, rest, KEY_STOPS);
  }

  lemma ItemText(l: seq<Value>, i: nat, level: nat, c: char, rest: string, st: bool)
    requires c == '=' || c == '.' || c == '['
    ensures ListItem(l, i, level, [c] + rest, st)
         == if c == '=' then ItemAtEquals(l, i, rest, st)
            else if c == '.' then ItemAtDot(l, i, level, rest, st)
            else ItemAtBracket(l, i, level, rest, st)
  {
    assert RunesUntil([c] + rest, ITEM_STOPS) == Scan([], At(c), rest);
  }

  /** A key or listItem call did the update whose outcome is `sub`, or failed when it is a refusal. */
  ghost predicate KeyDid(r: KeyRes, m: Tree, name: string, sub: Option<Value>, rest: string) {
    if sub.None? then r.err == Failed else r == KeyRes(m[name := sub.value], Ok, rest)
  }

  ghost predicate ItemDid(r: ListRes, l: seq<Value>, i: nat, sub: Option<Value>, rest: string) {
    if i > MAX_INDEX || sub.None? then r.err == Failed || r.err == Panicked
    else r == ListRes(Grow(l, i)[i := sub.value], Ok, rest)
  }

  lemma {:induction false} LastElement(text: string, list: seq<Value>, tail: string, st: bool)
    requires AfterValue(tail)
    ensures ElementsFrom(Escape(text) + (['}'] + tail), list, st) == Elements(list + [TypedVal(text, st)], Consumed(tail))
  {
    ScanEscaped(text, '}', tail, ELEMENT_STOPS);
  }

  lemma {:induction false} EarlierElement(text: string, list: seq<Value>, rest: string, st: bool)
    ensures ElementsFrom(Escape(text) + ([','] + rest), list, st) == ElementsFrom(rest, list + [TypedVal(text, st)], st)
  {
    ScanEscaped(text, ',', rest, ELEMENT_STOPS);
  }

  lemma {:induction false} TypedStep(texts: seq<string>, list: seq<Value>, st: bool)
    requires texts != []
    ensures list + TypedAll(texts, st) == list + [TypedVal(texts[0], st)] + TypedAll(texts[1..], st)
  {
  }

  /** A printed brace list is read as its elements, in order, and the comma after it is taken with it. */
  lemma {:induction false} ElementsRead(texts: seq<string>, list: seq<Value>, tail: string, st: bool)
    requires texts != [] && AfterValue(tail)
    ensures ElementsFrom(ElementsText(texts, tail), list, st) == Elements(list + TypedAll(texts, st), Consumed(tail))
    decreases |texts|
  {
    TypedStep(texts, list, st);
    var list' := list + [TypedVal(texts[0], st)];
    if |texts| == 1 {
      LastElement(texts[0], list, tail, st);
      assert list' + TypedAll(texts[1..], st) == list';
    } else {
      EarlierElement(texts[0], list, ElementsText(texts[1..], tail), st);
      ElementsRead(texts[1..], list', tail, st);
    }
  }

  /** What both key and listItem store for a printed value. */
  lemma {:induction false} EqualsReads(m: Tree, name: string, l: seq<Value>, i: nat, value: Content, tail: string, st: bool)
    requires Proper(value) && AfterValue(tail)
    ensures KeyAtEquals(m, name, ContentText(value, tail), st)
         == KeyRes(Set(m, name, TypedContent(value, st)), Ok, Consumed(tail))
    ensures
      var stored := SetIndex(l, i, TypedContent(value, st));
      ItemAtEquals(l, i, ContentText(value, tail), st) == ListRes(stored.list, stored.err, Consumed(tail))
  {
    match value
    case Scalar(text) => ValueText(text, tail, st);
    case Braces(texts) =>
      ElementsRead(texts, [], tail, st);
      assert (['{'] + ElementsText(texts, tail))[1..] == ElementsText(texts, tail);
      assert [] + TypedAll(texts, st) == TypedAll(texts, st);
  }

  /** key on a printed path performs the reference update below `name`, or fails when it refuses. */
  lemma {:induction false} KeyRefines(
    m: Tree, level: nat, name: string, path: seq<Seg>, value: Content, tail: string, st: bool)
    requires name != [] && NamesNonEmpty(path) && Proper(value) && AfterValue(tail)
    ensures KeyDid(Key(m, level, Escape(name) + PathText(path, value, tail), st), m, name,
                   Put(Lookup(m, name), path, TypedContent(value, st), level, false), Consumed(tail))
    decreases |path|, 1
  {
    if path == [] {
      KeyText(m, level, name, '=', ContentText(value, tail), st);
      EqualsReads(m, name, [], 0, value, tail, st);
    } else if path[0].Name? {
      KeyRefinesAtName(m, level, name, path, value, tail, st);
    } else {
      IndexText(path[0].i, PathText(path[1..], value, tail));
      KeyRefinesAtIndex(m, level, name, path, Dec(path[0].i), value, tail, st);
    }
  }

  lemma {:induction false} KeyRefinesAtName(
    m: Tree, level: nat, name: string, path: seq<Seg>, value: Content, tail: string, st: bool)
    requires name != [] && path != [] && path[0].Name? && NamesNonEmpty(path) && Proper(value) && AfterValue(tail)
    ensures KeyDid(Key(m, level, Escape(name) + PathText(path, value, tail), st), m, name,
                   Put(Lookup(m, name), path, TypedContent(value, st), level, false), Consumed(tail))
    decreases |path|, 0
  {
    var n, base, text := path[0].name, EntriesOf(Lookup(m, name)), PathText(path[1..], value, tail);
    KeyText(m, level, name, '.', Escape(n) + text, st);
    KeyRefines(base, level + 1, n, path[1..], value, tail, st);
    var sub := Put(Lookup(base, n), path[1..], TypedContent(value, st), level + 1, false);
    if sub.Some? {
      assert n in base[n := sub.value];
      assert base[n := sub.value] != map[];
    }
  }

  lemma {:induction false} KeyRefinesAtIndex(
    m: Tree, level: nat, name: string, path: seq<Seg>, digits: string, value: Content, tail: string, st: bool)
    requires name != [] && path != [] && path[0].Idx? && NamesNonEmpty(path) && Proper(value) && AfterValue(tail)
    requires KeyIndex(digits + ([']'] + PathText(path[1..], value, tail)))
          == Index(if path[0].i < INT64_LIMIT then Some(path[0].i) else None, PathText(path[1..], value, tail))
    ensures KeyDid(
              Key(m, level, Escape(name) + (['['] + (digits + ([']'] + PathText(path[1..], value, tail)))), st), m, name,
              Put(Lookup(m, name), path, TypedContent(value, st), level, false), Consumed(tail))
    decreases |path|, 0
  {
    KeyText(m, level, name, '[', digits + ([']'] + PathText(path[1..], value, tail)), st);
    ItemRefines(ItemsOf(Lookup(m, name)), path[0].i, level, path[1..], value, tail, st);
  }

  /** listItem on a printed path performs the reference update of element i. */
  lemma {:induction false} ItemRefines(
    l: seq<Value>, i: nat, level: nat, path: seq<Seg>, value: Content, tail: string, st: bool)
    requires NamesNonEmpty(path) && Proper(value) && AfterValue(tail)
    ensures ItemDid(ListItem(l, i, level, PathText(path, value, tail), st), l, i,
                    Put(ElementAt(l, i), path, TypedContent(value, st), level, true), Consumed(tail))
    decreases |path|, 1
  {
    if path == [] {
      ItemText(l, i, level, '=', ContentText(value, tail), st);
      EqualsReads(map[], [], l, i, value, tail, st);
    } else if path[0].Name? {
      ItemText(l, i, level, '.', Escape(path[0].name) + PathText(path[1..], value, tail), st);
      KeyRefines(EntriesOf(ElementAt(l, i)), level, path[0].name, path[1..], value, tail, st);
    } else {
      IndexText(path[0].i, PathText(path[1..], value, tail));
      ItemRefinesAtIndex(l, i, level, path, Dec(path[0].i), value, tail, st);
    }
  }

  lemma {:induction false} ItemRefinesAtIndex(
    l: seq<Value>, i: nat, level: nat, path: seq<Seg>, digits: string, value: Content, tail: string, st: bool)
    requires path != [] && path[0].Idx? && NamesNonEmpty(path) && Proper(value) && AfterValue(tail)
    requires KeyIndex(digits + ([']'] + PathText(path[1..], value, tail)))
          == Index(if path[0].i < INT64_LIMIT then Some(path[0].i) else None, PathText(path[1..], value, tail))
    ensures ItemDid(
              ListItem(l, i, level, ['['] + (digits + ([']'] + PathText(path[1..], value, tail))), st), l, i,
              Put(ElementAt(l, i), path, TypedContent(value, st), level, true), Consumed(tail))
    decreases |path|, 0
  {
    var j, base, text := path[0].i, ItemsOf(ElementAt(l, i)), PathText(path[1..], value, tail);
    ItemText(l, i, level, '[', digits + ([']'] + text), st);
    ItemRefines(base, j, level, path[1..], value, tail, st);
    if j < INT64_LIMIT {
      BracketDid(l, i, level, digits + ([']'] + text), j, text,
                 Put(ElementAt(base, j), path[1..], TypedContent(value, st), level, true), Consumed(tail), st);
    }
  }

  /** One level of nested lists: if the inner call did its update, the outer one stores the result. */
  lemma BracketDid(l: seq<Value>, i: nat, level: nat, s: string, j: nat, text: string,
                   sub: Option<Value>, rest: string, st: bool)
    requires KeyIndex(s) == Index(Some(j), text)
    requires ItemDid(ListItem(ItemsOf(ElementAt(l, i)), j, level, text, st), ItemsOf(ElementAt(l, i)), j, sub, rest)
    ensures
      var refused := i < |l| && !l[i].List? && !l[i].Nil?;
      ItemDid(ItemAtBracket(l, i, level, s, st), l, i,
              if refused || j > MAX_INDEX || sub.None? then None
              else Some(List(Grow(ItemsOf(ElementAt(l, i)), j)[j := sub.value])), rest)
  {
  }

  /** Refinement of a whole line, into any destination: the parser fails exactly when some update is
      refused, and otherwise leaves the tree that performing the updates in order leaves. */
  lemma {:induction false} ParseRefines(m: Tree, line: seq<Assignment>, st: bool)
    requires forall a | a in line :: WellFormed(a)
    ensures Parse(m, Line(line), st).ok <==> AssignAll(m, line, st).Some?
    ensures AssignAll(m, line, st).Some? ==> Parse(m, Line(line), st).data == AssignAll(m, line, st).value
    decreases |line|
  {
    if line != [] {
      var a := line[0];
      assert WellFormed(a);
      KeyRefines(m, 0, a.head, a.path, a.value, Tail(line[1..]), st);
      var r := Assign(m, a, st);
      if r.Some? {
        ParseRefines(r.value, line[1..], st);
        assert Consumed(Tail(line[1..])) == Line(line[1..]);
      }
    }
  }

  /* ---------- lines that assign nothing ---------- */

  /** A name without '=' fails, and leaves everything alone. */
  lemma {:induction false} NoValueFails(m: Tree, name: string, st: bool)
    requires name != []
    ensures Parse(m, Escape(name), st) == Outcome(m, false)
  {
    ScanEscapedToEnd(name, KEY_STOPS);
  }

  /** A name that ends in a comma fails too, but has been set to the empty string. */
  lemma {:induction false} CommaFails(m: Tree, name: string, rest: string, st: bool)
    requires name != []
    ensures Parse(m, Escape(name) + ([','] + rest), st) == Outcome(m[name := Str("")], false)
  {
    ScanEscaped(name, ',', rest, KEY_STOPS);
  }

  /** A backslash at the very end is dropped. */
  lemma {:induction false} ScanToBackslash(s: string, stops: set<char>)
    requires stops <= SPECIAL && '\\' !in stops
    ensures RunesUntil(Escape(s) + ['\\'], stops) == Scan(s, End, [])
  {
    if s != [] {
      ScanToBackslash(s[1..], stops);
      ScanRune(s[0], Escape(s[1..]) + ['\\'], stops);
      assert s == [s[0]] + s[1..];
      assert Escape(s) + ['\\'] == EscapeRune(s[0]) + (Escape(s[1..]) + ['\\']);
    }
  }

  /** The texts of a brace list that is never closed. */
  function OpenText(texts: seq<string>): string {
    if texts == [] then [] else Escape(texts[0]) + (if |texts| == 1 then [] else [','] + OpenText(texts[1..]))
  }

  lemma {:induction false} OpenElements(texts: seq<string>, list: seq<Value>, st: bool)
    ensures ElementsFrom(OpenText(texts), list, st) == Unclosed
    decreases |texts|
  {
    if |texts| == 1 {
      ScanEscapedToEnd(texts[0], ELEMENT_STOPS);
      assert OpenText(texts) == Escape(texts[0]);
    } else if |texts| > 1 {
      EarlierElement(texts[0], list, OpenText(texts[1..]), st);
      OpenElements(texts[1..], list + [TypedVal(texts[0], st)], st);
    }
  }

  /** A brace list that is never closed fails, and leaves everything alone. */
  lemma {:induction false} OpenBraceFails(m: Tree, name: string, texts: seq<string>, st: bool)
    ensures Parse(m, Escape(name) + (['='] + (['{'] + OpenText(texts))), st) == Outcome(m, false)
  {
    KeyText(m, 0, name, '=', ['{'] + OpenText(texts), st);
    OpenElements(texts, [], st);
    assert (['{'] + OpenText(texts))[1..] == OpenText(texts);
  }

  /** The list under a name, if it has one or could get one. */
  function ListUnder(m: Tree, name: string): seq<Value>
    requires name in m ==> m[name].List?
  {
    if name in m then m[name].items else []
  }

  lemma {:induction false} IndexLine(m: Tree, name: string, i: nat, rest: string, st: bool)
    requires name != [] && (name in m ==> m[name].List?) && i < INT64_LIMIT
    ensures
      var list := ListUnder(m, name);
      var item := ListItem(list, i, 0, rest, st);
      item.err != Ok && item.err != Panicked ==>
        Parse(m, Escape(name) + (['['] + (Dec(i) + ([']'] + rest))), st) == Outcome(m[name := List(item.list)], item.err == EOF)
  {
    KeyText(m, 0, name, '[', Dec(i) + ([']'] + rest), st);
    IndexText(i, rest);
  }

  /** An index without '=' succeeds, and stores the list as it was, which may be new and empty. */
  lemma {:induction false} NoItemValue(m: Tree, name: string, i: nat, st: bool)
    requires name != [] && (name in m ==> m[name].List?) && i < INT64_LIMIT
    ensures Parse(m, Escape(name) + (['['] + (Dec(i) + ([']'] + []))), st) == Outcome(m[name := List(ListUnder(m, name))], true)
  {
    IndexLine(m, name, i, [], st);
  }

  /** A brace list that is never closed fails after an index too. */
  lemma {:induction false} OpenBraceItemFails(m: Tree, name: string, i: nat, texts: seq<string>, st: bool)
    requires name != [] && (name in m ==> m[name].List?) && i < INT64_LIMIT
    ensures Parse(m, Escape(name) + (['['] + (Dec(i) + ([']'] + (['='] + (['{'] + OpenText(texts)))))), st)
         == Outcome(m[name := List(ListUnder(m, name))], false)
  {
    var rest := ['{'] + OpenText(texts);
    IndexLine(m, name, i, ['='] + rest, st);
    ItemText(ListUnder(m, name), i, 0, '=', rest, st);
    OpenElements(texts, [], st);
    assert rest[1..] == OpenText(texts);
  }

  /* ---------- what the reference update means: lens laws ---------- */

  /** The value at a path below a slot. */
  function Get(slot: Option<Value>, path: seq<Seg>): Option<Value>
    decreases |path|
  {
    if path == [] then slot
    else match path[0]
      case Name(n) => Get(Lookup(EntriesOf(slot), n), path[1..])
      case Idx(i) => Get(ElementAt(ItemsOf(slot), i), path[1..])
  }

  lemma {:induction false} GetPut(slot: Option<Value>, path: seq<Seg>, v: Value, level: nat, inList: bool)
    requires Put(slot, path, v, level, inList).Some?
    ensures Get(Put(slot, path, v, level, inList), path) == Some(v)
    decreases |path|
  {
    if path != [] {
      match path[0]
      case Name(n) =>
        GetPut(Lookup(EntriesOf(slot), n), path[1..], v, if inList then level else level + 1, false);
      case Idx(i) =>
        GetPut(ElementAt(ItemsOf(slot), i), path[1..], v, level, true);
    }
  }

  /** The paths part at position k, into two different names or two different indices. */
  predicate PartAt(p: seq<Seg>, q: seq<Seg>, k: nat) {
    k < |p| && k < |q| && p[..k] == q[..k] && p[k] != q[k] && (p[k].Name? <==> q[k].Name?)
  }

  /** What a store in one place means for a read of another. */
  predicate Framed(was: Option<Value>, now: Option<Value>, q: seq<Seg>) {
    now == was || (was == None && now == Some(Nil) && q != [] && q[|q| - 1].Idx?)
  }

  lemma {:induction false} PutFrameHere(slot: Option<Value>, p: seq<Seg>, q: seq<Seg>, v: Value, level: nat, inList: bool)
    requires PartAt(p, q, 0) && Put(slot, p, v, level, inList).Some?
    ensures Framed(Get(slot, q), Get(Put(slot, p, v, level, inList), q), q)
  {
    if p[0].Idx? && ElementAt(ItemsOf(slot), q[0].i).None? {
      GetNothing(None, q[1..]);
      GetNothing(Some(Nil), q[1..]);
    }
  }

  /** An update leaves every other path alone, up to the nils that fill a gap in a list. */
  lemma {:induction false} PutFrame(
    slot: Option<Value>, p: seq<Seg>, q: seq<Seg>, k: nat, v: Value, level: nat, inList: bool)
    requires PartAt(p, q, k) && Put(slot, p, v, level, inList).Some?
    ensures Framed(Get(slot, q), Get(Put(slot, p, v, level, inList), q), q)
    decreases k
  {
    if k == 0 {
      PutFrameHere(slot, p, q, v, level, inList);
    } else {
      assert p[0] == p[..k][0] == q[..k][0] == q[0];
      assert p[1..][..k - 1] == p[..k][1..] == q[..k][1..] == q[1..][..k - 1];
      match p[0]
      case Name(n) =>
        PutFrame(Lookup(EntriesOf(slot), n), p[1..], q[1..], k - 1, v, if inList then level else level + 1, false);
      case Idx(i) =>
        PutFrame(ElementAt(ItemsOf(slot), i), p[1..], q[1..], k - 1, v, level, true);
    }
  }

  lemma {:induction false} GetNothing(slot: Option<Value>, path: seq<Seg>)
    requires slot == None || slot == Some(Nil)
    ensures Get(slot, path) == if path == [] then slot else None
    decreases |path|
  {
    if path != [] {
      GetNothing(None, path[1..]);
    }
  }
}
