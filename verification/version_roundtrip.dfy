/** Printing and parsing versions are inverse to each other. */
module VersionRoundTrip {
  import opened Decimal
  import opened Options
  import opened Versions

  predicate Uints(s: seq<nat>) {
    forall i | 0 <= i < |s| :: s[i] < UINT64_LIMIT
  }

  /** Exactly the versions ParseSemantic can return. */
  predicate SemanticVersion(v: Version) {
    && v.semver && |v.components| == 3 && Uints(v.components)
    && (v.preRelease == [] || Dotted(v.preRelease, true)) && (v.buildMetadata == [] || Dotted(v.buildMetadata, true))
    && (forall id | id in Split(v.preRelease) :: LegalIdentifier(id))
  }

  /** Exactly the versions ParseGeneric can return. */
  predicate GenericVersion(v: Version) {
    && !v.semver && |v.components| >= 2 && Uints(v.components)
    && v.preRelease == [] && v.buildMetadata == []
  }

  lemma {:induction false} DottedPrefix(s: string, ident: bool)
    requires DottedLen(s, ident) > 0
    ensures Dotted(s[..DottedLen(s, ident)], ident)
    decreases |s|
  {
    var n := DottedLen(s, ident);
    if |s| > 2 && s[1] == '.' && InClass(s[2], ident) {
      DottedPrefix(s[2..], ident);
      assert s[..n][2..] == s[2..][..n - 2];
    } else if n > 1 {
      DottedPrefix(s[1..], ident);
      assert s[..n][1..] == s[1..][..n - 1];
    }
  }

  lemma {:induction false} ComponentsInRange(comps: seq<string>, first: bool, semver: bool)
    ensures var r := ParseComponents(comps, first, semver);
      r.Some? ==> |r.value| == |comps| && Uints(r.value)
  {
    if comps != [] {
      ComponentsInRange(comps[1..], false, semver);
    }
  }

  lemma GroupDotted(s: string, sign: char)
    ensures var g := Group(s, sign); g.Some? ==> g.value.first == [] || Dotted(g.value.first, true)
  {
    if s != [] && s[0] == sign && DottedLen(s[1..], true) > 0 {
      DottedPrefix(s[1..], true);
    }
  }

  /** What the parser returns is a version of the kind it was asked for. */
  lemma ParsedIsVersion(str: string, semver: bool)
    requires Parse(str, semver).Some?
    ensures semver ==> SemanticVersion(Parse(str, semver).value)
    ensures !semver ==> GenericVersion(Parse(str, semver).value)
  {
    var parts := VersionMatch(str).value;
    ComponentsInRange(Split(parts.first), true, semver);
    GroupDotted(parts.second, '-');
    if Group(parts.second, '-').Some? {
      GroupDotted(Group(parts.second, '-').value.second, '+');
    }
    assert forall id | id in Split([]) :: id == [];
  }

  /* ---------- the printed text is read back ---------- */

  lemma {:induction false} DottedThen(s: string, t: string, ident: bool)
    requires Dotted(s, ident) && (t == [] || (!InClass(t[0], ident) && t[0] != '.'))
    ensures DottedLen(s + t, ident) == |s| && (s + t)[..|s|] == s && (s + t)[|s|..] == t
    decreases |s|
  {
    var u := s + t;
    if |s| > 2 && s[1] == '.' && InClass(s[2], ident) {
      DottedThen(s[2..], t, ident);
      assert u[2..] == s[2..] + t;
    } else if |s| > 1 {
      DottedThen(s[1..], t, ident);
      assert u[1..] == s[1..] + t;
      assert s[1] != '.';
    } else {
      assert u[1..] == t;
    }
  }

  lemma {:induction false} RunDotted(r: string, t: string)
    requires r != [] && AllDigits(r)
    ensures Dotted(r, false)
    ensures Dotted(t, false) ==> Dotted(r + (['.'] + t), false)
  {
    var u := r + (['.'] + t);
    if |r| > 1 {
      RunDotted(r[1..], t);
      assert u[1..] == r[1..] + (['.'] + t);
      assert IsDigit(r[1]);
    } else if t != [] {
      assert u[2..] == t && u[1] == '.';
    }
  }

  lemma {:induction false} NumbersDotted(components: seq<nat>)
    requires components != []
    ensures Dotted(Numbers(components), false) && IsDigit(Numbers(components)[0])
  {
    if |components| > 1 {
      NumbersDotted(components[1..]);
    }
    RunDotted(Dec(components[0]), if |components| > 1 then Numbers(components[1..]) else []);
  }

  lemma {:induction false} SplitPiece(r: string, t: string)
    requires '.' !in r
    ensures Split(r) == [r]
    ensures Split(r + (['.'] + t)) == [r] + Split(t)
  {
    var u := r + (['.'] + t);
    if r == [] {
      assert u == ['.'] + t && u[1..] == t;
    } else {
      SplitPiece(r[1..], t);
      assert u[1..] == r[1..] + (['.'] + t);
      assert r == [r[0]] + r[1..];
    }
  }

  lemma ComponentRead(n: nat, checked: bool)
    requires n < UINT64_LIMIT
    ensures ParseComponent(Dec(n), checked) == Some(n) && '.' !in Dec(n)
  {
    ValDec(n);
    assert !IsDigit('.');
  }

  lemma {:induction false} NumbersParsed(components: seq<nat>, first: bool, semver: bool)
    requires components != [] && Uints(components)
    ensures |Split(Numbers(components))| == |components|
    ensures ParseComponents(Split(Numbers(components)), first, semver) == Some(components)
  {
    var n, rest := components[0], components[1..];
    ComponentRead(n, first || semver);
    SplitPiece(Dec(n), Numbers(rest));
    if rest == [] {
      assert components == [n] == [n] + [];
      assert ParseComponents([Dec(n)][1..], false, semver) == Some([]);
    } else {
      NumbersParsed(rest, false, semver);
      assert Numbers(components) == Dec(n) + (['.'] + Numbers(rest));
      assert ([Dec(n)] + Split(Numbers(rest)))[1..] == Split(Numbers(rest));
      assert components == [n] + rest;
    }
  }

  lemma {:induction false} DottedNoNewline(s: string, ident: bool)
    requires Dotted(s, ident)
    ensures '\n' !in s
    decreases |s|
  {
    if |s| > 2 && s[1] == '.' && InClass(s[2], ident) {
      DottedNoNewline(s[2..], ident);
      assert s == s[..2] + s[2..];
    } else if |s| > 1 {
      DottedNoNewline(s[1..], ident);
      assert s == [s[0]] + s[1..];
    }
  }

  lemma GroupRead(text: string, sign: char, t: string)
    requires sign == '-' || sign == '+'
    requires text == [] || Dotted(text, true)
    requires t == [] || (!InClass(t[0], true) && t[0] != '.' && (text == [] ==> t[0] != sign))
    ensures Group(Signed(sign, text) + t, sign) == Some(Parts(text, t))
    ensures '\n' !in Signed(sign, text)
  {
    if text == [] {
      assert Signed(sign, text) + t == t;
    } else {
      DottedThen(text, t, true);
      DottedNoNewline(text, true);
      assert (Signed(sign, text) + t)[1..] == text + t;
      assert text != [];
    }
  }

  lemma ExtraRead(pre: string, build: string)
    requires pre == [] || Dotted(pre, true)
    requires build == [] || Dotted(build, true)
    ensures ExtraMatch(Signed('-', pre) + Signed('+', build)) == Some(Parts(pre, build))
    ensures '\n' !in Signed('-', pre) + Signed('+', build)
  {
    GroupRead(pre, '-', Signed('+', build));
    GroupRead(build, '+', []);
    assert Signed('+', build) + [] == Signed('+', build);
  }

  lemma StringMatched(v: Version)
    requires v.components != []
    requires v.preRelease == [] || Dotted(v.preRelease, true)
    requires v.buildMetadata == [] || Dotted(v.buildMetadata, true)
    ensures VersionMatch(String(v))
         == Some(Parts(Numbers(v.components), Signed('-', v.preRelease) + Signed('+', v.buildMetadata)))
  {
    var extra := Signed('-', v.preRelease) + Signed('+', v.buildMetadata);
    NumbersDotted(v.components);
    DottedThen(Numbers(v.components), extra, false);
    ExtraRead(v.preRelease, v.buildMetadata);
  }

  /** Semantic round trip, in both forms: the printed form of every semantic version is parsed back to
      it, and so is the printed form of whatever ParseSemantic returned. */
  lemma SemanticRoundTrip(v: Version)
    requires SemanticVersion(v)
    ensures Parse(String(v), true) == Some(v)
  {
    StringMatched(v);
    NumbersParsed(v.components, true, true);
    ExtraRead(v.preRelease, v.buildMetadata);
  }

  /** Generic round trip; the uninterpreted tail of the original text is not kept. */
  lemma GenericRoundTrip(v: Version)
    requires GenericVersion(v)
    ensures Parse(String(v), false) == Some(v)
  {
    StringMatched(v);
    NumbersParsed(v.components, true, false);
  }

  lemma ParseStringParse(str: string, semver: bool)
    requires Parse(str, semver).Some?
    ensures Parse(String(Parse(str, semver).value), semver) == Parse(str, semver)
  {
    ParsedIsVersion(str, semver);
    if semver {
      SemanticRoundTrip(Parse(str, semver).value);
    } else {
      GenericRoundTrip(Parse(str, semver).value);
    }
  }
}
