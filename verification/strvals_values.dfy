/** The values a set line builds, and the two primitive updates on them (pkg/strvals/parser.go). */
module StrvalsValues {
  import opened Decimal
  import opened Options

  /** A Go interface{} as the parser builds it: nil, bool, int64, string, []interface{} or
      map[string]interface{}. */
  datatype Value =
    | Nil
    | Bool(b: bool)
    | Int(i: int)
    | Str(s: string)
    | List(items: seq<Value>)
    | Map(entries: Tree)

  type Tree = map<string, Value>

  /** What a parsing function reports. A panic inside listItem unwinds to the enclosing key. */
  datatype Err = Ok | EOF | Failed | Panicked

  const MAX_INDEX: nat := 65536
  const MAX_NESTED_NAME_LEVEL: nat := 30

  /** An empty key is never stored. */
  function Set(data: Tree, key: string, val: Value): Tree {
    if key == [] then data else data[key := val]
  }

  datatype ListErr = ListErr(list: seq<Value>, err: Err)

  function Nils(n: nat): (s: seq<Value>)
    ensures |s| == n && forall j | 0 <= j < n :: s[j] == Nil
  {
    seq(n, _ => Nil)
  }

  /** The list grown with nils so that index is in range. */
  function Grow(list: seq<Value>, index: nat): (g: seq<Value>)
    ensures |g| > index && |g| == (if |list| > index then |list| else index + 1)
    ensures forall j | 0 <= j < |g| :: g[j] == if j < |list| then list[j] else Nil
  {
    if |list| > index then list else list + Nils(index + 1 - |list|)
  }

  function SetIndex(list: seq<Value>, index: int, val: Value): ListErr {
    if index < 0 || index > MAX_INDEX then ListErr(list, Failed)
    else ListErr(Grow(list, index)[index := val], Ok)
  }

  /** Simple case folding as strings.EqualFold applies it to the ASCII words below: the only
      non-ASCII rune that folds into one of their letters is U+017F, which folds to 's'. */
  function FoldRune(c: char): char {
    if 'A' <= c <= 'Z' then (c as int - 'A' as int + 'a' as int) as char
    else if c == '\U{17F}' then 's'
    else c
  }

  predicate EqualFold(s: string, word: string) {
    |s| == |word| && forall i | 0 <= i < |s| :: FoldRune(s[i]) == word[i]
  }

  function TypedVal(v: string, st: bool): Value {
    if st then Str(v)
    else if EqualFold(v, "true") then Bool(true)
    else if EqualFold(v, "false") then Bool(false)
    else if EqualFold(v, "null") then Nil
    else if EqualFold(v, "0") then Int(0)
    else if v != [] && v[0] != '0' && Atoi(v).Some? then Int(Atoi(v).value)
    else Str(v)
  }
}
