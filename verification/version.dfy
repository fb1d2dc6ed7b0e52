/** Version numbers of pkg/version/version.go: parsing, printing and comparison. */
module Versions {
  import opened Decimal
  import opened Options
  import opened StringOrder

  /** A parsed version; components are uints, 64 bits wide. */
  datatype Version = Version(components: seq<nat>, semver: bool, preRelease: string, buildMetadata: string)

  /* ---------- the two regular expressions ---------- */

  /** \s of Go's regexp package. */
  predicate IsSpace(c: char) {
    c == '\t' || c == '\n' || c == '\U{C}' || c == '\r' || c == ' '
  }

  /** [0-9], and [0-9A-Za-z-] when `ident` is set. */
  predicate InClass(c: char, ident: bool) {
    IsDigit(c) || (ident && ('A' <= c <= 'Z' || 'a' <= c <= 'z' || c == '-'))
  }

  /** The length of the longest prefix of the form C+(\.C+)*, or 0. */
  function DottedLen(s: string, ident: bool): (n: nat)
    ensures n <= |s|
    ensures n > 0 <==> s != [] && InClass(s[0], ident)
  {
    if s == [] || !InClass(s[0], ident) then 0
    else if |s| > 2 && s[1] == '.' && InClass(s[2], ident) then 2 + DottedLen(s[2..], ident)
    else 1 + DottedLen(s[1..], ident)
  }

  predicate Dotted(s: string, ident: bool) {
    s != [] && DottedLen(s, ident) == |s|
  }

  function SkipSpace(s: string): string {
    if s != [] && IsSpace(s[0]) then SkipSpace(s[1..]) else s
  }

  datatype Parts = Parts(first: string, second: string)

  /** versionMatchRE: the numbers and the extra text after them, which must not hold a newline. */
  function VersionMatch(str: string): Option<Parts> {
    var s := SkipSpace(str);
    var t := if s != [] && s[0] == 'v' then s[1..] else s;
    var n := DottedLen(t, false);
    if n == 0 || '\n' in t[n..] then None else Some(Parts(t[..n], t[n..]))
  }

  /** One optional group of extraMatchRE: sign, then dotted identifiers. Absent when the sign is. */
  function Group(s: string, sign: char): Option<Parts> {
    if s == [] || s[0] != sign then Some(Parts([], s))
    else
      var n := DottedLen(s[1..], true);
      if n == 0 then None else Some(Parts(s[1..][..n], s[1..][n..]))
  }

  /** extraMatchRE: pre-release and build metadata. */
  function ExtraMatch(extra: string): Option<Parts> {
    var pre := Group(extra, '-');
    if pre.None? then None
    else
      var build := Group(pre.value.second, '+');
      if build.None? || SkipSpace(build.value.second) != [] then None
      else Some(Parts(pre.value.first, build.value.first))
  }

  /* ---------- parse and String ---------- */

  /** strings.Split(s, "."). */
  function Split(s: string): (r: seq<string>)
    ensures r != []
  {
    if s == [] then [[]]
    else
      var r := Split(s[1..]);
      if s[0] == '.' then [[]] + r else [[s[0]] + r[0]] + r[1..]
  }

  predicate ZeroPrefixed(comp: string) {
    comp != [] && comp[0] == '0' && comp != "0"
  }

  function ParseComponent(comp: string, checked: bool): Option<nat> {
    if checked && ZeroPrefixed(comp) then None else ParseUint(comp)
  }

  /** The numbers; `first` says that the first component of the version is still to come. */
  function ParseComponents(comps: seq<string>, first: bool, semver: bool): Option<seq<nat>> {
    if comps == [] then Some([])
    else
      var c := ParseComponent(comps[0], first || semver);
      var rest := ParseComponents(comps[1..], false, semver);
      if c.None? || rest.None? then None else Some([c.value] + rest.value)
  }

  predicate LegalIdentifier(comp: string) {
    ParseUint(comp).Some? ==> !ZeroPrefixed(comp)
  }

  function Parse(str: string, semver: bool): Option<Version> {
    match VersionMatch(str)
    case None => None
    case Some(Parts(numbers, extra)) =>
      var comps := Split(numbers);
      if (semver && |comps| != 3) || (!semver && |comps| < 2) then None
      else match ParseComponents(comps, true, semver)
        case None => None
        case Some(components) =>
          if semver && extra != [] then
            match ExtraMatch(extra)
            case None => None
            case Some(Parts(pre, build)) =>
              if forall id | id in Split(pre) :: LegalIdentifier(id)
              then Some(Version(components, semver, pre, build)) else None
          else Some(Version(components, semver, [], []))
  }

  function Numbers(components: seq<nat>): string {
    if components == [] then []
    else if |components| == 1 then Dec(components[0])
    else Dec(components[0]) + (['.'] + Numbers(components[1..]))
  }

  function Signed(sign: char, text: string): string {
    if text == [] then [] else [sign] + text
  }

  function String(v: Version): string {
    Numbers(v.components) + (Signed('-', v.preRelease) + Signed('+', v.buildMetadata))
  }

  /* ---------- compareInternal ---------- */

  function OnlyZeros(a: seq<nat>): bool {
    forall i | 0 <= i < |a| :: a[i] == 0
  }

  function NatCmp(a: nat, b: nat): int {
    if b < a then 1 else if b > a then -1 else 0
  }

  function CompareNumbers(a: seq<nat>, b: seq<nat>): int {
    if a == [] then (if OnlyZeros(b) then 0 else -1)
    else if b == [] then (if OnlyZeros(a) then 0 else 1)
    else if a[0] != b[0] then NatCmp(a[0], b[0])
    else CompareNumbers(a[1..], b[1..])
  }

  function CompareIdentifier(a: string, b: string): int {
    if ParseUint(a).Some? && ParseUint(b).Some? then NatCmp(ParseUint(a).value, ParseUint(b).value)
    else StrCmp(a, b)
  }

  function CompareIdentifiers(a: seq<string>, b: seq<string>): int {
    if a == [] then (if b == [] then 0 else -1)
    else if b == [] then 1
    else
      var c := CompareIdentifier(a[0], b[0]);
      if c != 0 then c else CompareIdentifiers(a[1..], b[1..])
  }

  function ComparePreRelease(a: string, b: string): int {
    if a == [] && b != [] then 1
    else if a != [] && b == [] then -1
    else if a == b then 0
    else CompareIdentifiers(Split(a), Split(b))
  }

  function Compare(v: Version, o: Version): int {
    var c := CompareNumbers(v.components, o.components);
    if c != 0 || !v.semver || !o.semver then c else ComparePreRelease(v.preRelease, o.preRelease)
  }

  predicate LessThan(v: Version, o: Version) {
    Compare(v, o) == -1
  }

  /* ---------- the loops ---------- */

  lemma {:induction false} ComponentsStep(done: seq<nat>, comps: seq<string>, first: bool, semver: bool)
    requires comps != []
    ensures
      var c := ParseComponent(comps[0], first || semver);
      Prepend(done, ParseComponents(comps, first, semver)) ==
      if c.None? then None else Prepend(done + [c.value], ParseComponents(comps[1..], false, semver))
  {
    var c, rest := ParseComponent(comps[0], first || semver), ParseComponents(comps[1..], false, semver);
    if c.Some? && rest.Some? {
      assert done + ([c.value] + rest.value) == done + [c.value] + rest.value;
    }
  }

  method ComponentsLoop(comps: seq<string>, semver: bool) returns (r: Option<seq<nat>>)
    ensures r == ParseComponents(comps, true, semver)
  {
    var components := [];
    assert comps[0..] == comps;
    for i := 0 to |comps|
      invariant ParseComponents(comps, true, semver) == Prepend(components, ParseComponents(comps[i..], i == 0, semver))
    {
      ComponentsStep(components, comps[i..], i == 0, semver);
      assert comps[i..][1..] == comps[i + 1..];
      if (i == 0 || semver) && ZeroPrefixed(comps[i]) {
        return None;
      }
      var num := ParseUint(comps[i]);
      if num.None? {
        return None;
      }
      components := components + [num.value];
    }
    r := Some(components);
  }

  ghost function Prepend(a: seq<nat>, r: Option<seq<nat>>): (p: Option<seq<nat>>)
    ensures a == [] ==> p == r
    ensures r == Some([]) ==> p == Some(a)
  {
    assert a + [] == a && (r.Some? ==> [] + r.value == r.value);
    if r.None? then None else Some(a + r.value)
  }

  method LegalLoop(ids: seq<string>) returns (legal: bool)
    ensures legal == forall id | id in ids :: LegalIdentifier(id)
  {
    for i := 0 to |ids|
      invariant forall j | 0 <= j < i :: LegalIdentifier(ids[j])
    {
      if ParseUint(ids[i]).Some? && ZeroPrefixed(ids[i]) {
        assert ids[i] in ids && !LegalIdentifier(ids[i]);
        return false;
      }
    }
    legal := true;
  }

  method ParseLoop(str: string, semver: bool) returns (v: Option<Version>)
    ensures v == Parse(str, semver)
  {
    var parts := VersionMatch(str);
    if parts.None? {
      return None;
    }
    var comps := Split(parts.value.first);
    if (semver && |comps| != 3) || (!semver && |comps| < 2) {
      return None;
    }
    var components := ComponentsLoop(comps, semver);
    if components.None? {
      return None;
    }
    if !semver || parts.value.second == [] {
      return Some(Version(components.value, semver, [], []));
    }
    var extra := ExtraMatch(parts.value.second);
    if extra.None? {
      return None;
    }
    var ids := Split(extra.value.first);
    var legal := LegalLoop(ids);
    v := if !legal then None else Some(Version(components.value, semver, extra.value.first, extra.value.second));
  }

  method NumbersLoop(components: seq<nat>) returns (s: string)
    ensures s == Numbers(components)
  {
    s := [];
    assert components[0..] == components;
    for i := 0 to |components|
      invariant i == 0 ==> s == []
      invariant i > 0 ==> Numbers(components) == s + (if i == |components| then [] else ['.'] + Numbers(components[i..]))
    {
      assert components[i..][1..] == components[i + 1..];
      var before := s;
      if i > 0 {
        s := s + ['.'];
      }
      s := s + Dec(components[i]);
      if i + 1 < |components| {
        var rest := ['.'] + Numbers(components[i + 1..]);
        assert Numbers(components[i..]) == Dec(components[i]) + rest;
        assert i > 0 ==> before + (['.'] + (Dec(components[i]) + rest)) == s + rest;
      }
    }
  }

  method StringLoop(v: Version) returns (s: string)
    ensures s == String(v)
  {
    s := NumbersLoop(v.components);
    if v.preRelease != [] {
      s := s + ['-'] + v.preRelease;
    }
    if v.buildMetadata != [] {
      s := s + ['+'] + v.buildMetadata;
    }
  }

  method CompareLoop(v: Version, o: Version) returns (r: int)
    ensures r == Compare(v, o)
  {
    var i := 0;
    while i < |v.components| && i < |o.components|
      invariant i <= |v.components| && i <= |o.components|
      invariant CompareNumbers(v.components, o.components) == CompareNumbers(v.components[i..], o.components[i..])
    {
      if o.components[i] < v.components[i] {
        return 1;
      } else if o.components[i] > v.components[i] {
        return -1;
      }
      assert v.components[i..][1..] == v.components[i + 1..] && o.components[i..][1..] == o.components[i + 1..];
      i := i + 1;
    }
    if i < |v.components| && !OnlyZeros(v.components[i..]) {
      return 1;
    } else if i < |o.components| && !OnlyZeros(o.components[i..]) {
      return -1;
    }
    if !v.semver || !o.semver {
      return 0;
    }
    if v.preRelease == [] && o.preRelease != [] {
      return 1;
    } else if v.preRelease != [] && o.preRelease == [] {
      return -1;
    } else if v.preRelease == o.preRelease {
      return 0;
    }
    var a, b := Split(v.preRelease), Split(o.preRelease);
    var j := 0;
    while j < |a| && j < |b|
      invariant j <= |a| && j <= |b|
      invariant CompareIdentifiers(a, b) == CompareIdentifiers(a[j..], b[j..])
    {
      var c := CompareIdentifier(a[j], b[j]);
      if c != 0 {
        return c;
      }
      assert a[j..][1..] == a[j + 1..] && b[j..][1..] == b[j + 1..];
      j := j + 1;
    }
    r := if |b| < |a| then 1 else if |b| > |a| then -1 else 0;
  }
}
