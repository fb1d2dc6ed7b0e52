/** The container commands of Helm jobs (pkg/runtime/helmchart.go): argument vectors quoted into one
    shell script, and the rules of the POSIX shell by which that script is read back. */
module HelmShell {
  import opened Options
  import opened StringOrder

  /* ---------- sections 2.2 and 2.3 of the POSIX.1-2017 Shell Command Language ---------- */

  datatype Quoting = Unquoted | Backslash | Single | Double
  datatype QChar = QChar(c: char, how: Quoting)
  datatype Token = Word(chars: seq<QChar>) | Op(text: string)
  datatype Mode = Outside | InSingle | InDouble | InComment

  /** The length of the operator at the start of s, the longest one, or 0. */
  function OpLen(s: string): (n: nat)
    ensures n <= |s|
  {
    if s == [] then 0
    else if s[0] == '\n' || s[0] == '(' || s[0] == ')' then 1
    else if s[0] == '&' || s[0] == '|' || s[0] == ';' then (if |s| > 1 && s[1] == s[0] then 2 else 1)
    else if s[0] == '<' then
      if |s| > 2 && s[1] == '<' && s[2] == '-' then 3
      else if |s| > 1 && (s[1] == '<' || s[1] == '&' || s[1] == '>') then 2 else 1
    else if s[0] == '>' then (if |s| > 1 && (s[1] == '>' || s[1] == '&' || s[1] == '|') then 2 else 1)
    else 0
  }

  predicate IsBlank(c: char) {
    c == ' ' || c == '\t'
  }

  /** A substitution whose end only the full shell grammar can find; these are not read here. */
  predicate OpensSubstitution(s: string) {
    s != [] && (s[0] == '`' || (s[0] == '$' && |s| > 1 && (s[1] == '(' || s[1] == '{')))
  }

  function Flush(cur: Option<seq<QChar>>): seq<Token> {
    if cur.None? then [] else [Word(cur.value)]
  }

  function Chars(cur: Option<seq<QChar>>): seq<QChar> {
    if cur.None? then [] else cur.value
  }

  function Then(ts: seq<Token>, r: Option<seq<Token>>): Option<seq<Token>> {
    if r.None? then None else Some(ts + r.value)
  }

  /** Token recognition. `cur` is the word being read, if one has begun; quote characters are removed and
      every other character remembers how it was quoted. None: an unterminated quotation, or input
      outside the fragment above. */
  function Lex(s: string, cur: Option<seq<QChar>>, mode: Mode): Option<seq<Token>>
    decreases |s|
  {
    match mode
    case Outside => LexOutside(s, cur)
    case InSingle =>
      if s == [] then None
      else if s[0] == '\'' then Lex(s[1..], cur, Outside)
      else Lex(s[1..], Some(Chars(cur) + [QChar(s[0], Single)]), InSingle)
    case InDouble => LexDouble(s, cur)
    case InComment =>
      if s == [] then Some([])
      else if s[0] == '\n' then Then([Op("\n")], Lex(s[1..], None, Outside))
      else Lex(s[1..], None, InComment)
  }

  function LexOutside(s: string, cur: Option<seq<QChar>>): Option<seq<Token>>
    decreases |s|, 0
  {
    if s == [] then Some(Flush(cur))
    else if s[0] == '\'' then Lex(s[1..], Some(Chars(cur)), InSingle)
    else if s[0] == '"' then Lex(s[1..], Some(Chars(cur)), InDouble)
    else if s[0] == '\\' then
      if |s| == 1 then None
      else if s[1] == '\n' then Lex(s[2..], cur, Outside)
      else Lex(s[2..], Some(Chars(cur) + [QChar(s[1], Backslash)]), Outside)
    else if OpensSubstitution(s) then None
    else if OpLen(s) > 0 then Then(Flush(cur) + [Op(s[..OpLen(s)])], Lex(s[OpLen(s)..], None, Outside))
    else if IsBlank(s[0]) then Then(Flush(cur), Lex(s[1..], None, Outside))
    else if s[0] == '#' && cur.None? then Lex(s[1..], None, InComment)
    else Lex(s[1..], Some(Chars(cur) + [QChar(s[0], Unquoted)]), Outside)
  }

  function LexDouble(s: string, cur: Option<seq<QChar>>): Option<seq<Token>>
    decreases |s|, 0
  {
    if s == [] || OpensSubstitution(s) then None
    else if s[0] == '"' then Lex(s[1..], cur, Outside)
    else if s[0] == '\\' && |s| > 1 && s[1] == '\n' then Lex(s[2..], cur, InDouble)
    else if s[0] == '\\' && |s| > 1 && (s[1] == '$' || s[1] == '`' || s[1] == '"' || s[1] == '\\') then
      Lex(s[2..], Some(Chars(cur) + [QChar(s[1], Backslash)]), InDouble)
    else Lex(s[1..], Some(Chars(cur) + [QChar(s[0], Double)]), InDouble)
  }

  function Tokens(script: string): Option<seq<Token>> {
    Lex(script, None, Outside)
  }

  /** The tokens between the && operators. */
  function SplitAnd(ts: seq<Token>): (r: seq<seq<Token>>)
    ensures r != []
  {
    if ts == [] then [[]]
    else
      var r := SplitAnd(ts[1..]);
      if ts[0] == Op("&&") then [[]] + r else [[ts[0]] + r[0]] + r[1..]
  }

  /** A word no character of which is open to expansion, so that it denotes its own text. */
  predicate Inert(t: Token) {
    t.Word? && forall i | 0 <= i < |t.chars| :: t.chars[i].how == Single || t.chars[i].how == Backslash
  }

  function TextOf(chars: seq<QChar>): string {
    if chars == [] then [] else [chars[0].c] + TextOf(chars[1..])
  }

  /** These tokens are the simple command argv, literally. */
  ghost predicate Denotes(ts: seq<Token>, argv: seq<string>) {
    |ts| == |argv| && forall i | 0 <= i < |argv| :: Inert(ts[i]) && TextOf(ts[i].chars) == argv[i]
  }

  ghost predicate AllDenote(parts: seq<seq<Token>>, steps: seq<seq<string>>) {
    |parts| == |steps| && forall i | 0 <= i < |steps| :: Denotes(parts[i], steps[i])
  }

  /* ---------- containerCommand ---------- */

  /** The argument with each quote replaced by '\'' . */
  function Body(arg: string): string {
    if arg == [] then []
    else (if arg[0] == '\'' then "'\\''" else [arg[0]]) + Body(arg[1..])
  }

  function QuoteArg(arg: string): string {
    ['\''] + (Body(arg) + ['\''])
  }

  /** strings.Join. */
  function Join(parts: seq<string>, sep: string): string {
    if parts == [] then [] else if |parts| == 1 then parts[0] else parts[0] + (sep + Join(parts[1..], sep))
  }

  function QuoteAll(args: seq<string>): seq<string> {
    if args == [] then [] else [QuoteArg(args[0])] + QuoteAll(args[1..])
  }

  function ShellJoin(args: seq<string>): string {
    Join(QuoteAll(args), " ")
  }

  function JoinAll(steps: seq<seq<string>>): (r: seq<string>)
    ensures |r| == |steps|
  {
    if steps == [] then [] else [ShellJoin(steps[0])] + JoinAll(steps[1..])
  }

  function Script(decode: string, steps: seq<seq<string>>): string {
    Join((if decode == [] then [] else [decode]) + JoinAll(steps), " && ")
  }

  function ContainerCommand(decode: string, steps: seq<seq<string>>): seq<string> {
    if decode == [] && |steps| == 1 then steps[0] else ["sh", "-c", Script(decode, steps)]
  }

  method ShellJoinLoop(args: seq<string>) returns (s: string)
    ensures s == ShellJoin(args)
  {
    var quoted := [];
    assert args[0..] == args;
    for i := 0 to |args|
      invariant QuoteAll(args) == quoted + QuoteAll(args[i..])
    {
      assert args[i..][1..] == args[i + 1..];
      quoted := quoted + [QuoteArg(args[i])];
    }
    assert quoted + QuoteAll([]) == quoted;
    s := Join(quoted, " ");
  }

  method ContainerCommandLoop(decode: string, steps: seq<seq<string>>) returns (argv: seq<string>)
    ensures argv == ContainerCommand(decode, steps)
  {
    if decode == [] && |steps| == 1 {
      return steps[0];
    }
    var parts := if decode != [] then [decode] else [];
    assert steps[0..] == steps;
    for i := 0 to |steps|
      invariant (if decode == [] then [] else [decode]) + JoinAll(steps) == parts + JoinAll(steps[i..])
    {
      assert steps[i..][1..] == steps[i + 1..];
      var part := ShellJoinLoop(steps[i]);
      parts := parts + [part];
    }
    assert parts + JoinAll([]) == parts;
    argv := ["sh", "-c", Join(parts, " && ")];
  }

  /* ---------- the script is read back ---------- */

  function QChars(arg: string): (q: seq<QChar>)
    ensures |q| == |arg| && Inert(Word(q))
  {
    if arg == [] then []
    else [QChar(arg[0], if arg[0] == '\'' then Backslash else Single)] + QChars(arg[1..])
  }

  lemma {:induction false} QCharsText(arg: string)
    ensures TextOf(QChars(arg)) == arg
  {
    if arg != [] {
      QCharsText(arg[1..]);
      assert QChars(arg)[1..] == QChars(arg[1..]);
    }
  }

  lemma {:induction false} LexQuote(rest: string, w: seq<QChar>)
    ensures Lex("'\\''" + rest, Some(w), InSingle) == Lex(rest, Some(w + [QChar('\'', Backslash)]), InSingle)
  {
    var s := "'\\''" + rest;
    assert s[1..][2..] == ['\''] + rest;
    assert Lex(s, Some(w), InSingle) == LexOutside(s[1..], Some(w));
    assert s[1..][0] == '\\' && s[1..][1] == '\'';
    var w' := w + [QChar('\'', Backslash)];
    assert LexOutside(s[1..], Some(w)) == Lex(['\''] + rest, Some(w'), Outside);
    assert (['\''] + rest)[1..] == rest;
  }

  lemma {:induction false} LexInside(c: char, rest: string, w: seq<QChar>)
    requires c != '\''
    ensures Lex([c] + rest, Some(w), InSingle) == Lex(rest, Some(w + [QChar(c, Single)]), InSingle)
  {
    assert ([c] + rest)[1..] == rest;
  }

  lemma {:induction false} LexClose(rest: string, w: seq<QChar>)
    ensures Lex(['\''] + rest, Some(w), InSingle) == Lex(rest, Some(w), Outside)
  {
    assert (['\''] + rest)[1..] == rest;
  }

  lemma {:induction false} LexBody(arg: string, rest: string, w: seq<QChar>)
    ensures Lex(Body(arg) + (['\''] + rest), Some(w), InSingle) == Lex(rest, Some(w + QChars(arg)), Outside)
  {
    if arg == [] {
      assert Body(arg) + (['\''] + rest) == ['\''] + rest;
      LexClose(rest, w);
      assert w + QChars(arg) == w;
    } else {
      var q := QChar(arg[0], if arg[0] == '\'' then Backslash else Single);
      LexBody(arg[1..], rest, w + [q]);
      assert w + QChars(arg) == w + [q] + QChars(arg[1..]);
      var below := Body(arg[1..]) + (['\''] + rest);
      if arg[0] == '\'' {
        assert Body(arg) + (['\''] + rest) == "'\\''" + below;
        LexQuote(below, w);
      } else {
        assert Body(arg) + (['\''] + rest) == [arg[0]] + below;
        LexInside(arg[0], below, w);
      }
    }
  }

  lemma {:induction false} LexArg(arg: string, rest: string)
    ensures Lex(QuoteArg(arg) + rest, None, Outside) == Lex(rest, Some(QChars(arg)), Outside)
  {
    var s := QuoteArg(arg) + rest;
    assert s[1..] == Body(arg) + (['\''] + rest);
    LexBody(arg, rest, []);
    assert [] + QChars(arg) == QChars(arg);
  }

  function WordsOf(args: seq<string>): (ts: seq<Token>)
    ensures |ts| == |args| && forall i | 0 <= i < |args| :: ts[i] == Word(QChars(args[i]))
  {
    if args == [] then [] else [Word(QChars(args[0]))] + WordsOf(args[1..])
  }

  lemma {:induction false} LexBlank(rest: string, cur: Option<seq<QChar>>)
    ensures Lex(" " + rest, cur, Outside) == Then(Flush(cur), Lex(rest, None, Outside))
  {
    assert (" " + rest)[1..] == rest;
  }

  predicate Delimits(rest: string) {
    rest == [] || rest[0] == ' '
  }

  lemma {:induction false} LexDelimited(w: seq<QChar>, rest: string)
    requires Delimits(rest)
    ensures Lex(rest, Some(w), Outside) == Then([Word(w)], Lex(rest, None, Outside))
  {
    if rest == [] {
      assert [Word(w)] + [] == [Word(w)];
    } else {
      assert rest == " " + rest[1..];
      LexBlank(rest[1..], Some(w));
      LexBlank(rest[1..], None);
      var r := Lex(rest[1..], None, Outside);
      assert r.Some? ==> [] + r.value == r.value;
    }
  }

  lemma {:induction false} ThenThen(a: seq<Token>, b: seq<Token>, r: Option<seq<Token>>)
    ensures Then(a, Then(b, r)) == Then(a + b, r) && Then([], r) == r
  {
    if r.Some? {
      assert a + (b + r.value) == a + b + r.value;
      assert [] + r.value == r.value;
    }
  }

  /** A quoted vector is read back as exactly its arguments. */
  lemma {:induction false} LexShellJoin(args: seq<string>, rest: string)
    requires Delimits(rest)
    ensures Lex(ShellJoin(args) + rest, None, Outside) == Then(WordsOf(args), Lex(rest, None, Outside))
  {
    if args == [] {
      assert ShellJoin(args) + rest == rest;
      ThenThen([], [], Lex(rest, None, Outside));
    } else {
      var w, tail := QChars(args[0]), args[1..];
      if tail == [] {
        assert args == [args[0]] && QuoteAll(tail) == [];
        LexArg(args[0], rest);
        LexDelimited(w, rest);
        assert WordsOf(args) == [Word(w)];
      } else {
        assert QuoteAll(args)[1..] == QuoteAll(tail);
        assert ShellJoin(args) == QuoteArg(args[0]) + (" " + ShellJoin(tail));
        assert ShellJoin(args) + rest == QuoteArg(args[0]) + (" " + (ShellJoin(tail) + rest));
        LexArg(args[0], " " + (ShellJoin(tail) + rest));
        LexBlank(ShellJoin(tail) + rest, Some(w));
        LexShellJoin(tail, rest);
        ThenThen([Word(w)], WordsOf(tail), Lex(rest, None, Outside));
      }
    }
  }

  lemma {:induction false} LexAnd(rest: string)
    ensures Lex(" && " + rest, None, Outside) == Then([Op("&&")], Lex(rest, None, Outside))
  {
    var s := "&& " + rest;
    assert " && " + rest == " " + s;
    LexBlank(s, None);
    assert OpLen(s) == 2 && s[..2] == "&&" && s[2..] == " " + rest;
    LexBlank(rest, None);
    ThenThen([Op("&&")], [], Lex(rest, None, Outside));
    ThenThen([], [], Lex(s, None, Outside));
    assert Flush(None) + [Op("&&")] == [Op("&&")];
  }

  /** The tokens of the quoted steps with && between them. */
  function StepTokens(steps: seq<seq<string>>): seq<Token> {
    if steps == [] then []
    else if |steps| == 1 then WordsOf(steps[0])
    else WordsOf(steps[0]) + ([Op("&&")] + StepTokens(steps[1..]))
  }

  lemma {:induction false} LexSteps(steps: seq<seq<string>>)
    ensures Tokens(Join(JoinAll(steps), " && ")) == Some(StepTokens(steps))
  {
    if steps == [] {
      assert Join(JoinAll(steps), " && ") == [];
    } else {
      var tail := steps[1..];
      if tail == [] {
        LexShellJoin(steps[0], []);
        assert JoinAll(steps) == [ShellJoin(steps[0])];
        assert ShellJoin(steps[0]) + [] == ShellJoin(steps[0]);
        assert WordsOf(steps[0]) + [] == WordsOf(steps[0]);
      } else {
        var below := Join(JoinAll(tail), " && ");
        assert JoinAll(steps)[1..] == JoinAll(tail);
        assert Join(JoinAll(steps), " && ") == ShellJoin(steps[0]) + (" && " + below);
        LexShellJoin(steps[0], " && " + below);
        LexAnd(below);
        LexSteps(tail);
      }
    }
  }

  lemma {:induction false} SplitWords(ts: seq<Token>, rest: seq<Token>)
    requires Op("&&") !in ts
    ensures SplitAnd(ts) == [ts]
    ensures SplitAnd(ts + ([Op("&&")] + rest)) == [ts] + SplitAnd(rest)
  {
    var u := ts + ([Op("&&")] + rest);
    if ts == [] {
      assert u == [Op("&&")] + rest && u[1..] == rest;
    } else {
      SplitWords(ts[1..], rest);
      assert u[1..] == ts[1..] + ([Op("&&")] + rest);
      assert ts == [ts[0]] + ts[1..];
    }
  }

  lemma {:induction false} WordsDenote(args: seq<string>)
    ensures Denotes(WordsOf(args), args) && Op("&&") !in WordsOf(args)
  {
    forall i | 0 <= i < |args| ensures TextOf(WordsOf(args)[i].chars) == args[i] {
      QCharsText(args[i]);
    }
  }

  lemma {:induction false} StepsDenote(steps: seq<seq<string>>)
    requires steps != []
    ensures AllDenote(SplitAnd(StepTokens(steps)), steps)
  {
    WordsDenote(steps[0]);
    if |steps| == 1 {
      SplitWords(WordsOf(steps[0]), []);
    } else {
      StepsDenote(steps[1..]);
      SplitWords(WordsOf(steps[0]), StepTokens(steps[1..]));
    }
  }

  /** Without a decode prefix: the shell reads the script as exactly the given vectors, in order,
      separated by &&, with nothing left to expand, whatever the arguments contain. */
  lemma {:induction false} ScriptPreservesMeaning(steps: seq<seq<string>>)
    requires steps != []
    ensures Tokens(Script([], steps)).Some? && AllDenote(SplitAnd(Tokens(Script([], steps)).value), steps)
  {
    assert [] + JoinAll(steps) == JoinAll(steps);
    LexSteps(steps);
    StepsDenote(steps);
  }

  /* ---------- the decode prefix ---------- */

  function Marked(w: string, how: Quoting): seq<QChar> {
    if w == [] then [] else [QChar(w[0], how)] + Marked(w[1..], how)
  }

  /** A piece of shell text: a plain word, a word in double quotes, or an operator. */
  datatype Piece = PlainPiece(w: string) | DoublePiece(w: string) | OpPiece(w: string)

  function TextOfPiece(p: Piece): string {
    if p.DoublePiece? then ['"'] + p.w + ['"'] else p.w
  }

  function TokenOfPiece(p: Piece): Token {
    match p
    case PlainPiece(w) => Word(Marked(w, Unquoted))
    case DoublePiece(w) => Word(Marked(w, Double))
    case OpPiece(w) => Op(w)
  }

  function PiecesText(ps: seq<Piece>): string {
    if ps == [] then []
    else if |ps| == 1 then TextOfPiece(ps[0])
    else TextOfPiece(ps[0]) + (" " + PiecesText(ps[1..]))
  }

  function PiecesTokens(ps: seq<Piece>): (ts: seq<Token>)
    ensures |ts| == |ps|
  {
    if ps == [] then [] else [TokenOfPiece(ps[0])] + PiecesTokens(ps[1..])
  }

  predicate GoodPiece(p: Piece) {
    match p
    case PlainPiece(w) => w != [] && forall i | 0 <= i < |w| :: PlainChar(w[i])
    case DoublePiece(w) => forall i | 0 <= i < |w| :: DoubleChar(w[i])
    case OpPiece(w) => w == "|" || w == ">"
  }

  /** The prefix that writes the decoded values file: one pipeline, its only expansion the environment
      variable in double quotes. */
  function DecodePieces(): (ps: seq<Piece>)
    ensures ps != [] && forall i | 0 <= i < |ps| :: GoodPiece(ps[i])
  {
    [PlainPiece("echo"), DoublePiece("$HELM_VALUES"), OpPiece("|"), PlainPiece("base64"), PlainPiece("-d"),
     OpPiece(">"), PlainPiece("/tmp/values.yaml")]
  }

  predicate PlainChar(c: char) {
    'a' <= c <= 'z' || '0' <= c <= '9' || c == '-' || c == '/' || c == '.'
  }

  lemma {:induction false} LexPlainChar(c: char, rest: string, cur: Option<seq<QChar>>)
    requires PlainChar(c)
    ensures Lex([c] + rest, cur, Outside) == Lex(rest, Some(Chars(cur) + [QChar(c, Unquoted)]), Outside)
  {
    assert ([c] + rest)[1..] == rest;
  }

  lemma {:induction false} LexPlainRun(w: string, rest: string, cur: Option<seq<QChar>>)
    requires w != [] && forall i | 0 <= i < |w| :: PlainChar(w[i])
    ensures Lex(w + rest, cur, Outside) == Lex(rest, Some(Chars(cur) + Marked(w, Unquoted)), Outside)
  {
    var q, below := Chars(cur) + [QChar(w[0], Unquoted)], w[1..];
    LexPlainChar(w[0], below + rest, cur);
    assert w + rest == [w[0]] + (below + rest);
    assert Chars(cur) + Marked(w, Unquoted) == q + Marked(below, Unquoted);
    if below == [] {
      assert below + rest == rest && q + Marked(below, Unquoted) == q;
    } else {
      LexPlainRun(below, rest, Some(q));
    }
  }

  predicate DoubleChar(c: char) {
    'A' <= c <= 'Z' || c == '_' || c == '$'
  }

  lemma {:induction false} LexDoubleRun(w: string, rest: string, cur: seq<QChar>)
    requires forall i | 0 <= i < |w| :: DoubleChar(w[i])
    ensures Lex(w + (['"'] + rest), Some(cur), InDouble) == Lex(rest, Some(cur + Marked(w, Double)), Outside)
  {
    var s := w + (['"'] + rest);
    if w == [] {
      assert s[1..] == rest && cur + Marked(w, Double) == cur;
    } else {
      var below := w[1..] + (['"'] + rest);
      assert s == [w[0]] + below && s[1..] == below;
      assert below[0] != '(' && below[0] != '{';
      LexDoubleRun(w[1..], rest, cur + [QChar(w[0], Double)]);
      assert cur + Marked(w, Double) == cur + [QChar(w[0], Double)] + Marked(w[1..], Double);
    }
  }

  /** A piece of text that is read as one token whenever a blank or the end follows. */
  ghost predicate Reads(text: string, t: Token) {
    forall rest | Delimits(rest) :: Lex(text + rest, None, Outside) == Then([t], Lex(rest, None, Outside))
  }

  lemma {:induction false} ReadsPlain(w: string)
    requires w != [] && forall i | 0 <= i < |w| :: PlainChar(w[i])
    ensures Reads(w, Word(Marked(w, Unquoted)))
  {
    var m := Marked(w, Unquoted);
    forall rest | Delimits(rest) ensures Lex(w + rest, None, Outside) == Then([Word(m)], Lex(rest, None, Outside)) {
      LexPlainRun(w, rest, None);
      assert Chars(None) + m == m;
      LexDelimited(m, rest);
    }
  }

  lemma {:induction false} ReadsDouble(w: string)
    requires forall i | 0 <= i < |w| :: DoubleChar(w[i])
    ensures Reads(['"'] + w + ['"'], Word(Marked(w, Double)))
  {
    var m := Marked(w, Double);
    forall rest | Delimits(rest)
      ensures Lex(['"'] + w + ['"'] + rest, None, Outside) == Then([Word(m)], Lex(rest, None, Outside))
    {
      var s := ['"'] + w + ['"'] + rest;
      assert s[1..] == w + (['"'] + rest);
      LexDoubleRun(w, rest, []);
      assert [] + m == m;
      LexDelimited(m, rest);
    }
  }

  lemma {:induction false} ReadsOp(op: string)
    requires op == "|" || op == ">" || op == "&&"
    ensures Reads(op, Op(op))
  {
    forall rest | Delimits(rest) ensures Lex(op + rest, None, Outside) == Then([Op(op)], Lex(rest, None, Outside)) {
      var s := op + rest;
      assert OpLen(s) == |op| && s[..|op|] == op && s[|op|..] == rest;
      assert Flush(None) + [Op(op)] == [Op(op)];
    }
  }

  lemma {:induction false} ReadThen(text: string, t: Token, below: string, ts: seq<Token>)
    requires Reads(text, t) && Tokens(below) == Some(ts)
    ensures Tokens(text + (" " + below)) == Some([t] + ts)
  {
    var rest := " " + below;
    assert Delimits(rest);
    LexBlank(below, None);
    ThenThen([], [], Tokens(below));
  }

  lemma {:induction false} ReadsPiece(p: Piece)
    requires GoodPiece(p)
    ensures Reads(TextOfPiece(p), TokenOfPiece(p)) && TokenOfPiece(p) != Op("&&")
  {
    match p
    case PlainPiece(w) => ReadsPlain(w);
    case DoublePiece(w) => ReadsDouble(w);
    case OpPiece(w) => ReadsOp(w);
  }

  lemma {:induction false} LexPiece(p: Piece, below: string, ts: seq<Token>)
    requires GoodPiece(p) && Tokens(below) == Some(ts)
    ensures Tokens(TextOfPiece(p) + (" " + below)) == Some([TokenOfPiece(p)] + ts)
  {
    ReadsPiece(p);
    ReadThen(TextOfPiece(p), TokenOfPiece(p), below, ts);
  }

  lemma {:induction false} UnfoldPieces(ps: seq<Piece>, below: string, ts: seq<Token>)
    requires |ps| > 1
    ensures PiecesText(ps) + (" " + below) == TextOfPiece(ps[0]) + (" " + (PiecesText(ps[1..]) + (" " + below)))
    ensures PiecesTokens(ps) + ts == [TokenOfPiece(ps[0])] + (PiecesTokens(ps[1..]) + ts)
  {
  }

  lemma {:induction false} LexPieces(ps: seq<Piece>, below: string, ts: seq<Token>)
    requires ps != [] && (forall i | 0 <= i < |ps| :: GoodPiece(ps[i])) && Tokens(below) == Some(ts)
    ensures Tokens(PiecesText(ps) + (" " + below)) == Some(PiecesTokens(ps) + ts)
  {
    if |ps| == 1 {
      LexPiece(ps[0], below, ts);
      assert ps[1..] == [] && PiecesTokens(ps[1..]) == [];
      assert PiecesTokens(ps) == [TokenOfPiece(ps[0])];
    } else {
      LexPieces(ps[1..], below, ts);
      LexPiece(ps[0], PiecesText(ps[1..]) + (" " + below), PiecesTokens(ps[1..]) + ts);
      UnfoldPieces(ps, below, ts);
    }
  }

  lemma {:induction false} PiecesWithoutAnd(ps: seq<Piece>)
    requires forall i | 0 <= i < |ps| :: GoodPiece(ps[i])
    ensures Op("&&") !in PiecesTokens(ps)
  {
    if ps != [] {
      ReadsPiece(ps[0]);
      PiecesWithoutAnd(ps[1..]);
    }
  }

  lemma {:induction false} ScriptAfter(decode: string, steps: seq<seq<string>>)
    requires decode != [] && steps != []
    ensures Script(decode, steps) == decode + (" " + ("&&" + (" " + Join(JoinAll(steps), " && "))))
  {
    var below := Join(JoinAll(steps), " && ");
    assert ([decode] + JoinAll(steps))[1..] == JoinAll(steps);
    assert Script(decode, steps) == decode + (" && " + below);
    assert " && " + below == " " + ("&&" + (" " + below));
  }

  /** With a prefix such as the decode pipeline: its tokens first, then exactly the given vectors. */
  lemma {:induction false} ScriptAfterPrefix(ps: seq<Piece>, steps: seq<seq<string>>)
    requires ps != [] && (forall i | 0 <= i < |ps| :: GoodPiece(ps[i])) && steps != []
    ensures PiecesText(ps) != [] && Tokens(Script(PiecesText(ps), steps)).Some?
    ensures
      var parts := SplitAnd(Tokens(Script(PiecesText(ps), steps)).value);
      parts[0] == PiecesTokens(ps) && AllDenote(parts[1..], steps)
  {
    var below := Join(JoinAll(steps), " && ");
    LexSteps(steps);
    ReadsOp("&&");
    ReadThen("&&", Op("&&"), below, StepTokens(steps));
    LexPieces(ps, "&&" + (" " + below), [Op("&&")] + StepTokens(steps));
    assert TextOfPiece(ps[0]) != [];
    ScriptAfter(PiecesText(ps), steps);
    PiecesWithoutAnd(ps);
    SplitWords(PiecesTokens(ps), StepTokens(steps));
    StepsDenote(steps);
  }

  /** What the argv of the container runs: directly the only step, or a shell script read as the decode
      pipeline, if there is one, and exactly the steps. */
  ghost predicate Runs(argv: seq<string>, ps: seq<Piece>, steps: seq<seq<string>>) {
    if ps == [] && |steps| == 1 then argv == steps[0]
    else
      && |argv| == 3 && argv[..2] == ["sh", "-c"] && Tokens(argv[2]).Some?
      && (var parts := SplitAnd(Tokens(argv[2]).value);
          if ps == [] then AllDenote(parts, steps) else parts[0] == PiecesTokens(ps) && AllDenote(parts[1..], steps))
  }

  lemma {:induction false} ContainerRuns(ps: seq<Piece>, steps: seq<seq<string>>)
    requires (forall i | 0 <= i < |ps| :: GoodPiece(ps[i])) && steps != []
    ensures Runs(ContainerCommand(PiecesText(ps), steps), ps, steps)
  {
    if ps == [] {
      ScriptPreservesMeaning(steps);
    } else {
      ScriptAfterPrefix(ps, steps);
    }
  }

  /* ---------- Command ---------- */

  datatype Operation = Install | Teardown

  /** What Command reads of a HelmChart; a timeout is the text of a positive duration. */
  datatype Chart = Chart(
    release: string,
    name: string,
    repo: string,
    version: string,
    targetNamespace: string,
    createNamespace: bool,
    insecureSkipTLSVerify: bool,
    atomic: bool,
    timeout: Option<string>,
    values: map<string, string>,
    content: string)

  function Flag(on: bool, args: seq<string>): seq<string> {
    if on then args else []
  }

  function SetFlags(keys: seq<string>, values: map<string, string>): seq<string>
    requires forall k | k in keys :: k in values
  {
    if keys == [] then [] else ["--set", keys[0] + "=" + values[keys[0]]] + SetFlags(keys[1..], values)
  }

  /** The keys of the value map, sorted. */
  predicate KeyOrder(keys: seq<string>, values: map<string, string>) {
    StrictlySorted(keys) && Elements(keys) == values.Keys
  }

  function TimeoutFlag(c: Chart): seq<string> {
    if c.timeout.Some? then ["--timeout", c.timeout.value] else []
  }

  function Command(c: Chart, op: Operation, keys: seq<string>): (steps: seq<seq<string>>)
    requires KeyOrder(keys, c.values)
    ensures steps != []
  {
    if op.Teardown? then
      [["helm", "uninstall", c.release, "--namespace", c.targetNamespace] + TimeoutFlag(c)]
    else
      assert forall k | k in keys :: k in Elements(keys);
      [["helm", "repo", "add", c.name, c.repo] + Flag(c.insecureSkipTLSVerify, ["--insecure-skip-tls-verify"]),
       ["helm", "upgrade", c.release, c.name + "/" + c.name, "--install", "--namespace", c.targetNamespace]
       + Flag(c.createNamespace, ["--create-namespace"])
       + Flag(c.version != [], ["--version", c.version])
       + Flag(c.insecureSkipTLSVerify, ["--insecure-skip-tls-verify"])
       + TimeoutFlag(c)
       + Flag(c.atomic, ["--atomic"])
       + SetFlags(keys, c.values)
       + Flag(c.content != [], ["--values", "/tmp/values.yaml"])]
  }

  lemma {:induction false} KeyOrderUnique(a: seq<string>, b: seq<string>, values: map<string, string>)
    requires KeyOrder(a, values) && KeyOrder(b, values)
    ensures a == b
  {
    StrictUnique(a, b);
  }

  /** Whatever order the value map is iterated in, the command is the one for its sorted keys. */
  method CommandLoop(c: Chart, op: Operation) returns (steps: seq<seq<string>>)
    ensures exists keys :: KeyOrder(keys, c.values) && steps == Command(c, op, keys)
    ensures forall keys | KeyOrder(keys, c.values) :: steps == Command(c, op, keys)
  {
    var found, todo := [], c.values.Keys;
    while todo != {}
      invariant todo <= c.values.Keys && Elements(found) == c.values.Keys - todo
    {
      var k :| k in todo;
      assert Elements(found + [k]) == Elements(found) + {k};
      found, todo := found + [k], todo - {k};
    }
    var keys := Canonical(found);
    CanonicalMeans(found);
    assert KeyOrder(keys, c.values);
    assert forall k | k in keys :: k in Elements(keys);
    forall other | KeyOrder(other, c.values) ensures other == keys {
      KeyOrderUnique(keys, other, c.values);
    }
    if op.Teardown? {
      return [["helm", "uninstall", c.release, "--namespace", c.targetNamespace] + TimeoutFlag(c)];
    }
    var upgrade := ["helm", "upgrade", c.release, c.name + "/" + c.name, "--install", "--namespace", c.targetNamespace];
    upgrade := upgrade + Flag(c.createNamespace, ["--create-namespace"]);
    upgrade := upgrade + Flag(c.version != [], ["--version", c.version]);
    upgrade := upgrade + Flag(c.insecureSkipTLSVerify, ["--insecure-skip-tls-verify"]);
    upgrade := upgrade + TimeoutFlag(c);
    upgrade := upgrade + Flag(c.atomic, ["--atomic"]);
    var flags := SetFlagsLoop(keys, c.values);
    upgrade := upgrade + flags + Flag(c.content != [], ["--values", "/tmp/values.yaml"]);
    var repoAdd := ["helm", "repo", "add", c.name, c.repo] + Flag(c.insecureSkipTLSVerify, ["--insecure-skip-tls-verify"]);
    steps := [repoAdd, upgrade];
  }

  method SetFlagsLoop(keys: seq<string>, values: map<string, string>) returns (flags: seq<string>)
    requires forall k | k in keys :: k in values
    ensures flags == SetFlags(keys, values)
  {
    flags := [];
    assert keys[0..] == keys;
    for i := 0 to |keys|
      invariant SetFlags(keys, values) == flags + SetFlags(keys[i..], values)
    {
      assert keys[i..][1..] == keys[i + 1..];
      flags := flags + ["--set", keys[i] + "=" + values[keys[i]]];
    }
  }

  /** The container of a Helm job: the argv built for an operation runs the decode pipeline if there is
      value content to decode, and then exactly the vectors of Command. */
  lemma {:induction false} JobRunsCommand(c: Chart, op: Operation, keys: seq<string>)
    requires KeyOrder(keys, c.values)
    ensures
      var ps := if c.content != [] && op.Install? then DecodePieces() else [];
      Runs(ContainerCommand(PiecesText(ps), Command(c, op, keys)), ps, Command(c, op, keys))
  {
    ContainerRuns(if c.content != [] && op.Install? then DecodePieces() else [], Command(c, op, keys));
  }
}
