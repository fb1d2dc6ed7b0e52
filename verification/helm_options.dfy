/** What helm is told by the commands of a chart (Command of pkg/runtime/helmchart.go), read the way a command
    line with options is read: a flag sets something or takes the next word, any other word stands for itself. */
module HelmOptions {
  import opened Options
  import opened StringOrder
  import opened HelmShell

  /** What a command line says. */
  datatype Said = Said(
    words: seq<string>,
    namespace: Option<string>,
    version: Option<string>,
    timeout: Option<string>,
    valuesFile: Option<string>,
    sets: seq<string>,
    install: bool,
    createNamespace: bool,
    insecureSkipTLSVerify: bool,
    atomic: bool)

  const NOTHING := Said([], None, None, None, None, [], false, false, false, false)

  const SWITCHES: set<string> := {"--install", "--create-namespace", "--insecure-skip-tls-verify", "--atomic"}
  const OPTIONS: set<string> := {"--namespace", "--version", "--timeout", "--set", "--values"}

  predicate IsWord(w: string) {
    w !in SWITCHES && w !in OPTIONS
  }

  function Switch(s: Said, w: string): Said {
    if w == "--install" then s.(install := true)
    else if w == "--create-namespace" then s.(createNamespace := true)
    else if w == "--insecure-skip-tls-verify" then s.(insecureSkipTLSVerify := true)
    else s.(atomic := true)
  }

  function Take(s: Said, w: string, v: string): Said {
    if w == "--namespace" then s.(namespace := Some(v))
    else if w == "--version" then s.(version := Some(v))
    else if w == "--timeout" then s.(timeout := Some(v))
    else if w == "--set" then s.(sets := s.sets + [v])
    else s.(valuesFile := Some(v))
  }

  /** None where an option lacks its value. */
  function Read(args: seq<string>, s: Said): Option<Said>
    decreases |args|
  {
    if args == [] then Some(s)
    else if args[0] in SWITCHES then Read(args[1..], Switch(s, args[0]))
    else if args[0] in OPTIONS then
      (if |args| == 1 then None else Read(args[2..], Take(s, args[0], args[1])))
    else Read(args[1..], s.(words := s.words + [args[0]]))
  }

  /** Reading on after a complete piece. */
  lemma {:induction false} ReadOn(a: seq<string>, b: seq<string>, s: Said)
    requires Read(a, s).Some?
    ensures Read(a + b, s) == Read(b, Read(a, s).value)
    decreases |a|
  {
    if a == [] {
      assert a + b == b;
    } else {
      assert (a + b)[1..] == a[1..] + b;
      if a[0] in SWITCHES {
        ReadOn(a[1..], b, Switch(s, a[0]));
      } else if a[0] in OPTIONS {
        assert (a + b)[2..] == a[2..] + b;
        ReadOn(a[2..], b, Take(s, a[0], a[1]));
      } else {
        ReadOn(a[1..], b, s.(words := s.words + [a[0]]));
      }
    }
  }

  lemma {:induction false} ReadWords(ws: seq<string>, s: Said)
    requires forall i | 0 <= i < |ws| :: IsWord(ws[i])
    ensures Read(ws, s) == Some(s.(words := s.words + ws))
    decreases |ws|
  {
    if ws == [] {
      assert s.words + ws == s.words;
    } else {
      ReadWords(ws[1..], s.(words := s.words + [ws[0]]));
      assert s.words + [ws[0]] + ws[1..] == s.words + ws;
    }
  }

  lemma {:induction false} ReadSwitch(on: bool, w: string, s: Said)
    requires w in SWITCHES
    ensures Read(Flag(on, [w]), s) == Some(if on then Switch(s, w) else s)
  {
    assert [w][1..] == [];
  }

  lemma {:induction false} ReadOption(on: bool, w: string, v: string, s: Said)
    requires w in OPTIONS && w !in SWITCHES
    ensures Read(Flag(on, [w, v]), s) == Some(if on then Take(s, w, v) else s)
  {
    assert [w, v][2..] == [];
  }

  function SetTexts(keys: seq<string>, values: map<string, string>): (r: seq<string>)
    requires forall k | k in keys :: k in values
    ensures |r| == |keys| && forall i | 0 <= i < |keys| :: r[i] == keys[i] + "=" + values[keys[i]]
  {
    seq(|keys|, i requires 0 <= i < |keys| => keys[i] + "=" + values[keys[i]])
  }

  lemma {:induction false} ReadSets(keys: seq<string>, values: map<string, string>, s: Said)
    requires forall k | k in keys :: k in values
    ensures Read(SetFlags(keys, values), s) == Some(s.(sets := s.sets + SetTexts(keys, values)))
    decreases |keys|
  {
    if keys == [] {
      assert s.sets + SetTexts(keys, values) == s.sets;
    } else {
      var first := keys[0] + "=" + values[keys[0]];
      var flag := ["--set", first];
      ReadOption(true, "--set", first, s);
      ReadOn(flag, SetFlags(keys[1..], values), s);
      ReadSets(keys[1..], values, s.(sets := s.sets + [first]));
      assert s.sets + [first] + SetTexts(keys[1..], values) == s.sets + SetTexts(keys, values);
    }
  }

  function Given(on: bool, v: string): Option<string> {
    if on then Some(v) else None
  }

  /** Told a piece more. */
  lemma {:induction false} Says(before: seq<string>, s: Said, piece: seq<string>, s': Said)
    requires Read(before, NOTHING) == Some(s) && Read(piece, s) == Some(s')
    ensures Read(before + piece, NOTHING) == Some(s')
  {
    ReadOn(before, piece, NOTHING);
  }

  lemma {:induction false} TimeoutSays(c: Chart, s: Said)
    requires s.timeout.None?
    ensures Read(TimeoutFlag(c), s) == Some(s.(timeout := c.timeout))
  {
    if c.timeout.Some? {
      ReadOption(true, "--timeout", c.timeout.value, s);
    }
  }

  function Fixed(c: Chart): seq<string> {
    ["helm", "upgrade", c.release, c.name + "/" + c.name, "--install", "--namespace", c.targetNamespace]
  }

  lemma {:induction false} FixedSays(c: Chart)
    requires IsWord(c.release) && IsWord(c.name + "/" + c.name)
    ensures Read(Fixed(c), NOTHING) ==
            Some(NOTHING.(words := ["helm", "upgrade", c.release, c.name + "/" + c.name], install := true,
                          namespace := Some(c.targetNamespace)))
  {
    var words := ["helm", "upgrade", c.release, c.name + "/" + c.name];
    var s := NOTHING.(words := words);
    ReadWords(words, NOTHING);
    assert NOTHING.words + words == words;
    ReadSwitch(true, "--install", s);
    Says(words, s, ["--install"], s.(install := true));
    ReadOption(true, "--namespace", c.targetNamespace, s.(install := true));
    Says(words + ["--install"], s.(install := true), ["--namespace", c.targetNamespace],
      s.(install := true, namespace := Some(c.targetNamespace)));
    assert Fixed(c) == words + ["--install"] + ["--namespace", c.targetNamespace];
  }

  /** The part of the command before the values. */
  function Switches(c: Chart): seq<string> {
    Fixed(c)
    + Flag(c.createNamespace, ["--create-namespace"])
    + Flag(c.version != [], ["--version", c.version])
    + Flag(c.insecureSkipTLSVerify, ["--insecure-skip-tls-verify"])
    + TimeoutFlag(c)
    + Flag(c.atomic, ["--atomic"])
  }

  lemma {:induction false} SwitchesSay(c: Chart)
    requires IsWord(c.release) && IsWord(c.name + "/" + c.name)
    ensures Read(Switches(c), NOTHING) ==
            Some(Said(["helm", "upgrade", c.release, c.name + "/" + c.name], Some(c.targetNamespace),
                      Given(c.version != [], c.version), c.timeout, None, [], true, c.createNamespace,
                      c.insecureSkipTLSVerify, c.atomic))
  {
    FixedSays(c);
    var a0, s0 := Fixed(c), Read(Fixed(c), NOTHING).value;
    ReadSwitch(c.createNamespace, "--create-namespace", s0);
    var a1, s1 := a0 + Flag(c.createNamespace, ["--create-namespace"]), s0.(createNamespace := c.createNamespace);
    Says(a0, s0, Flag(c.createNamespace, ["--create-namespace"]), s1);
    ReadOption(c.version != [], "--version", c.version, s1);
    var a2, s2 := a1 + Flag(c.version != [], ["--version", c.version]), s1.(version := Given(c.version != [], c.version));
    Says(a1, s1, Flag(c.version != [], ["--version", c.version]), s2);
    ReadSwitch(c.insecureSkipTLSVerify, "--insecure-skip-tls-verify", s2);
    var skip := Flag(c.insecureSkipTLSVerify, ["--insecure-skip-tls-verify"]);
    var s3 := s2.(insecureSkipTLSVerify := c.insecureSkipTLSVerify);
    Says(a2, s2, skip, s3);
    TimeoutSays(c, s3);
    var s4 := s3.(timeout := c.timeout);
    Says(a2 + skip, s3, TimeoutFlag(c), s4);
    ReadSwitch(c.atomic, "--atomic", s4);
    Says(a2 + skip + TimeoutFlag(c), s4, Flag(c.atomic, ["--atomic"]), s4.(atomic := c.atomic));
  }

  /** helm upgrade is told exactly what the spec says: the release and chart it is about, each switch if and
      only if it is on, each option if and only if it is given, the values in the order of their keys. */
  lemma {:induction false} UpgradeSays(c: Chart, keys: seq<string>)
    requires KeyOrder(keys, c.values) && IsWord(c.release) && IsWord(c.name + "/" + c.name)
    ensures |Command(c, Install, keys)| == 2 && forall k | k in keys :: k in c.values
    ensures Read(Command(c, Install, keys)[1], NOTHING) ==
            Some(Said(["helm", "upgrade", c.release, c.name + "/" + c.name], Some(c.targetNamespace),
                      Given(c.version != [], c.version), c.timeout, Given(c.content != [], "/tmp/values.yaml"),
                      SetTexts(keys, c.values), true, c.createNamespace, c.insecureSkipTLSVerify, c.atomic))
  {
    assert forall k | k in keys :: k in Elements(keys);
    SwitchesSay(c);
    var s := Read(Switches(c), NOTHING).value;
    ReadSets(keys, c.values, s);
    var s1 := s.(sets := SetTexts(keys, c.values));
    assert s.sets + SetTexts(keys, c.values) == SetTexts(keys, c.values);
    Says(Switches(c), s, SetFlags(keys, c.values), s1);
    ReadOption(c.content != [], "--values", "/tmp/values.yaml", s1);
    Says(Switches(c) + SetFlags(keys, c.values), s1, Flag(c.content != [], ["--values", "/tmp/values.yaml"]),
      s1.(valuesFile := Given(c.content != [], "/tmp/values.yaml")));
  }

  /** helm repo add is told the name and the repository. */
  lemma {:induction false} RepoAddSays(c: Chart, keys: seq<string>)
    requires KeyOrder(keys, c.values) && IsWord(c.name) && IsWord(c.repo)
    ensures |Command(c, Install, keys)| == 2
    ensures Read(Command(c, Install, keys)[0], NOTHING) ==
            Some(NOTHING.(words := ["helm", "repo", "add", c.name, c.repo], insecureSkipTLSVerify := c.insecureSkipTLSVerify))
  {
    var words := ["helm", "repo", "add", c.name, c.repo];
    var s := NOTHING.(words := words);
    ReadWords(words, NOTHING);
    assert NOTHING.words + words == words;
    ReadSwitch(c.insecureSkipTLSVerify, "--insecure-skip-tls-verify", s);
    Says(words, s, Flag(c.insecureSkipTLSVerify, ["--insecure-skip-tls-verify"]),
      s.(insecureSkipTLSVerify := c.insecureSkipTLSVerify));
  }

  /** helm uninstall is told the release, its namespace and the timeout if there is one. */
  lemma {:induction false} UninstallSays(c: Chart, keys: seq<string>)
    requires KeyOrder(keys, c.values) && IsWord(c.release)
    ensures |Command(c, Teardown, keys)| == 1
    ensures Read(Command(c, Teardown, keys)[0], NOTHING) ==
            Some(NOTHING.(words := ["helm", "uninstall", c.release], namespace := Some(c.targetNamespace), timeout := c.timeout))
  {
    var three := ["helm", "uninstall", c.release];
    var s := NOTHING.(words := three);
    ReadWords(three, NOTHING);
    assert NOTHING.words + three == three;
    ReadOption(true, "--namespace", c.targetNamespace, s);
    var s1 := s.(namespace := Some(c.targetNamespace));
    Says(three, s, ["--namespace", c.targetNamespace], s1);
    TimeoutSays(c, s1);
    Says(three + ["--namespace", c.targetNamespace], s1, TimeoutFlag(c), s1.(timeout := c.timeout));
    assert three + ["--namespace", c.targetNamespace] == ["helm", "uninstall", c.release, "--namespace", c.targetNamespace];
  }
}
