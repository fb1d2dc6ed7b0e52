/** Exactly which strings ParseSemantic (pkg/version/version.go) accepts, and as what. */
module VersionLanguage {
  import opened Decimal
  import opened Options
  import opened Versions
  import opened VersionRoundTrip
  import opened VersionSpace

  function Joined(parts: seq<string>): string
    requires parts != []
  {
    if |parts| == 1 then parts[0] else parts[0] + (['.'] + Joined(parts[1..]))
  }

  lemma {:induction false} JoinedRune(c: char, r: seq<string>)
    requires r != []
    ensures Joined([[c] + r[0]] + r[1..]) == [c] + Joined(r)
  {
    var u := [[c] + r[0]] + r[1..];
    if |r| > 1 {
      assert u[1..] == r[1..];
      assert [c] + r[0] + (['.'] + Joined(r[1..])) == [c] + (r[0] + (['.'] + Joined(r[1..])));
    }
  }

  lemma {:induction false} JoinedDot(r: seq<string>)
    requires r != []
    ensures Joined([[]] + r) == ['.'] + Joined(r)
  {
    assert ([[]] + r)[1..] == r;
  }

  /** Splitting at dots loses nothing. */
  lemma {:induction false} JoinedSplit(s: string)
    ensures Joined(Split(s)) == s
  {
    if s != [] {
      JoinedSplit(s[1..]);
      JoinedDot(Split(s[1..]));
      JoinedRune(s[0], Split(s[1..]));
    }
  }

  /** Without leading zeros, the components are the numerals that stand in the text. */
  lemma {:induction false} ComponentsAreNumerals(comps: seq<string>, first: bool, cs: seq<nat>)
    requires comps != [] && ParseComponents(comps, first, true) == Some(cs)
    ensures cs != [] && Numbers(cs) == Joined(comps)
    decreases |comps|
  {
    DecVal(comps[0]);
    if |comps| > 1 {
      var rest := ParseComponents(comps[1..], false, true).value;
      ComponentsAreNumerals(comps[1..], false, rest);
      assert cs == [cs[0]] + rest && cs[1..] == rest;
    } else {
      assert comps[1..] == [];
      assert cs == [cs[0]];
    }
  }

  lemma {:induction false} SpacesSkipped(s: string)
    requires SkipSpace(s) == []
    ensures Spaces(s)
  {
    if s != [] {
      SpacesSkipped(s[1..]);
      assert forall i | 0 < i < |s| :: s[i] == s[1..][i - 1];
    }
  }

  /** White space, and what comes after it. */
  lemma {:induction false} SkippedSpaces(s: string) returns (w: string)
    ensures Spaces(w) && s == w + SkipSpace(s)
  {
    if s != [] && IsSpace(s[0]) {
      w := SkippedSpaces(s[1..]);
      assert s == [s[0]] + s[1..];
      w := [s[0]] + w;
    } else {
      w := [];
    }
  }

  lemma {:induction false} GroupText(s: string, sign: char)
    requires Group(s, sign).Some?
    ensures s == Signed(sign, Group(s, sign).value.first) + Group(s, sign).value.second
  {
    if s != [] && s[0] == sign {
      var n := DottedLen(s[1..], true);
      assert s == [sign] + s[1..] && s[1..] == s[1..][..n] + s[1..][n..];
    }
  }

  lemma {:induction false} ExtraText(extra: string) returns (w: string)
    requires ExtraMatch(extra).Some?
    ensures
      var e := ExtraMatch(extra).value;
      Spaces(w) && extra == Signed('-', e.first) + Signed('+', e.second) + w
  {
    GroupText(extra, '-');
    var rest := Group(extra, '-').value.second;
    GroupText(rest, '+');
    w := Group(rest, '+').value.second;
    SpacesSkipped(w);
  }

  /** White space, perhaps a v, the text of the version, and white space without a line break. */
  ghost predicate IsTextOf(str: string, v: Version) {
    exists w, sign, w' :: TextParts(str, v, w, sign, w')
  }

  predicate TextParts(str: string, v: Version, w: string, sign: string, w': string) {
    && Spaces(w) && Spaces(w') && '\n' !in w' && (sign == [] || sign == "v")
    && str == w + (sign + (String(v) + w'))
  }

  function Unsigned(s: string): string {
    if s != [] && s[0] == 'v' then s[1..] else s
  }

  function SignOf(s: string): (sign: string)
    ensures (sign == [] || sign == "v") && s == sign + Unsigned(s)
  {
    if s != [] && s[0] == 'v' then "v" else []
  }

  lemma {:induction false} BodyText(str: string)
    requires VersionMatch(str).Some?
    ensures
      var m := VersionMatch(str).value;
      Unsigned(SkipSpace(str)) == m.first + m.second && '\n' !in m.second
  {
  }

  lemma {:induction false} MatchText(str: string) returns (w: string, sign: string)
    requires VersionMatch(str).Some?
    ensures
      var m := VersionMatch(str).value;
      && Spaces(w) && (sign == [] || sign == "v") && '\n' !in m.second
      && str == w + (sign + (m.first + m.second))
  {
    w := SkippedSpaces(str);
    sign := SignOf(SkipSpace(str));
    BodyText(str);
  }

  lemma {:induction false} NumbersText(str: string, v: Version)
    requires Parse(str, true) == Some(v)
    ensures VersionMatch(str).Some? && VersionMatch(str).value.first == Numbers(v.components)
  {
    var first := VersionMatch(str).value.first;
    JoinedSplit(first);
    ComponentsAreNumerals(Split(first), true, v.components);
  }

  lemma {:induction false} RestText(str: string, v: Version) returns (w': string)
    requires Parse(str, true) == Some(v)
    ensures VersionMatch(str).Some? && Spaces(w')
    ensures VersionMatch(str).value.second == Signed('-', v.preRelease) + Signed('+', v.buildMetadata) + w'
  {
    var second := VersionMatch(str).value.second;
    w' := [];
    if second != [] {
      w' := ExtraText(second);
    }
  }

  lemma {:induction false} AcceptedText(str: string, v: Version)
    requires Parse(str, true) == Some(v)
    ensures IsTextOf(str, v)
  {
    NumbersText(str, v);
    var w' := RestText(str, v);
    var w, sign := MatchText(str);
    var n, e := Numbers(v.components), Signed('-', v.preRelease) + Signed('+', v.buildMetadata);
    assert n + (e + w') == n + e + w';
    assert TextParts(str, v, w, sign, w');
  }

  lemma {:induction false} TextAccepted(str: string, v: Version, w: string, sign: string, w': string)
    requires SemanticVersion(v) && TextParts(str, v, w, sign, w')
    ensures Parse(str, true) == Some(v)
  {
    SemanticRoundTrip(v);
    SpaceAtEnd(String(v), w', true);
    var text := String(v) + w';
    NumbersDotted(v.components);
    assert IsDigit(text[0]);
    if sign == "v" {
      LeadingVIgnored(text, true);
    } else {
      assert sign + text == text;
    }
    LeadingSpaceIgnored(w, sign + text, true);
  }

  /** A string is accepted as the semantic version v if and only if v is one and the string is its text, with
      nothing but white space around it, no line break after it, and perhaps a v before it. */
  lemma {:induction false} SemanticTextExactly(str: string, v: Version)
    ensures Parse(str, true) == Some(v) <==> SemanticVersion(v) && IsTextOf(str, v)
  {
    if Parse(str, true) == Some(v) {
      ParsedIsVersion(str, true);
      AcceptedText(str, v);
    } else if SemanticVersion(v) && IsTextOf(str, v) {
      var w, sign, w' :| TextParts(str, v, w, sign, w');
      TextAccepted(str, v, w, sign, w');
    }
  }

  /** The numbers that a generic version was read from; only the first must be without leading zeros. */
  lemma {:induction false} GenericNumerals(str: string, v: Version)
    requires Parse(str, false) == Some(v)
    ensures
      var comps := Split(VersionMatch(str).value.first);
      && |comps| == |v.components| && comps[0] == Dec(v.components[0])
      && forall i | 0 <= i < |comps| :: ParseUint(comps[i]) == Some(v.components[i])
  {
    var comps := Split(VersionMatch(str).value.first);
    ComponentsRead(comps, true);
    DecVal(comps[0]);
  }

  lemma {:induction false} ComponentsRead(comps: seq<string>, first: bool)
    requires ParseComponents(comps, first, false).Some?
    ensures
      var cs := ParseComponents(comps, first, false).value;
      |cs| == |comps| && forall i | 0 <= i < |comps| :: ParseUint(comps[i]) == Some(cs[i])
    decreases |comps|
  {
    if comps != [] {
      ComponentsRead(comps[1..], false);
      assert comps == [comps[0]] + comps[1..];
    }
  }

  lemma {:induction false} NumeralFirst(r: string, t: string)
    requires ParseUint(r).Some?
    ensures Dotted(r, false) && Split(r) == [r]
    ensures Dotted(t, false) ==> Dotted(r + (['.'] + t), false) && Split(r + (['.'] + t)) == [r] + Split(t)
  {
    assert !IsDigit('.');
    RunDotted(r, t);
    SplitPiece(r, t);
  }

  lemma {:induction false} NumeralsJoined(comps: seq<string>)
    requires comps != [] && forall i | 0 <= i < |comps| :: ParseUint(comps[i]).Some?
    ensures Dotted(Joined(comps), false) && Split(Joined(comps)) == comps
  {
    if |comps| == 1 {
      NumeralFirst(comps[0], []);
      assert comps == [comps[0]];
    } else {
      NumeralsJoined(comps[1..]);
      NumeralFirst(comps[0], Joined(comps[1..]));
      assert comps == [comps[0]] + comps[1..];
    }
  }

  lemma {:induction false} NumeralsAccepted(comps: seq<string>, first: bool)
    requires forall i | 0 <= i < |comps| :: ParseUint(comps[i]).Some?
    requires first && comps != [] ==> !ZeroPrefixed(comps[0])
    ensures ParseComponents(comps, first, false).Some?
    decreases |comps|
  {
    if comps != [] {
      NumeralsAccepted(comps[1..], false);
    }
  }

  /** Any two or more numerals below 2^64, of which the first has no leading zeros, are a generic version. */
  lemma {:induction false} GenericAccepts(comps: seq<string>)
    requires |comps| >= 2 && !ZeroPrefixed(comps[0]) && forall i | 0 <= i < |comps| :: ParseUint(comps[i]).Some?
    ensures
      var r := Parse(Joined(comps), false);
      && r.Some? && |r.value.components| == |comps| && r.value.preRelease == r.value.buildMetadata == []
      && forall i | 0 <= i < |comps| :: ParseUint(comps[i]) == Some(r.value.components[i])
  {
    var s := Joined(comps);
    NumeralsJoined(comps);
    DottedThen(s, [], false);
    assert s + [] == s && SkipSpace(s) == s;
    NumeralsAccepted(comps, true);
    ComponentsRead(comps, true);
  }

  /** A pre-release identifier is refused exactly when it is a number below 2^64 with a leading zero. */
  lemma {:induction false} LegalExactly(id: string)
    ensures LegalIdentifier(id) <==> !(|id| > 1 && id[0] == '0' && AllDigits(id) && Val(id) < 0x1_0000_0000_0000_0000)
  {
  }
}
