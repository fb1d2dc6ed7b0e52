/** White space around a version string (pkg/version/version.go). */
module VersionSpace {
  import opened Decimal
  import opened Options
  import opened VersionRoundTrip
  import opened Versions

  predicate Spaces(w: string) {
    forall i | 0 <= i < |w| :: IsSpace(w[i])
  }

  lemma {:induction false} DottedThenSpace(s: string, w: string, ident: bool)
    requires Spaces(w)
    ensures DottedLen(s + w, ident) == DottedLen(s, ident)
    decreases |s|
  {
    if s == [] {
      assert s + w == w;
    } else if InClass(s[0], ident) {
      if |s| > 2 && s[1] == '.' && InClass(s[2], ident) {
        assert (s + w)[2..] == s[2..] + w;
        DottedThenSpace(s[2..], w, ident);
      } else {
        assert (s + w)[1..] == s[1..] + w;
        DottedThenSpace(s[1..], w, ident);
      }
    }
  }

  lemma {:induction false} SkipThenSpace(s: string, w: string)
    requires Spaces(w)
    ensures SkipSpace(s + w) == if SkipSpace(s) == [] then [] else SkipSpace(s) + w
  {
    if s == [] {
      assert s + w == w;
      AllSkipped(w);
    } else {
      assert (s + w)[1..] == s[1..] + w;
      if IsSpace(s[0]) {
        SkipThenSpace(s[1..], w);
      }
    }
  }

  lemma {:induction false} AllSkipped(w: string)
    requires Spaces(w)
    ensures SkipSpace(w) == []
  {
    if w != [] {
      AllSkipped(w[1..]);
    }
  }

  lemma {:induction false} GroupThenSpace(s: string, w: string, sign: char)
    requires Spaces(w) && !IsSpace(sign)
    ensures Group(s + w, sign) ==
              match Group(s, sign)
              case None => None
              case Some(Parts(text, rest)) => Some(Parts(text, rest + w))
  {
    if s == [] {
      assert s + w == w;
    } else if s[0] == sign {
      assert (s + w)[1..] == s[1..] + w;
      DottedThenSpace(s[1..], w, true);
      var n := DottedLen(s[1..], true);
      assert (s[1..] + w)[..n] == s[1..][..n] && (s[1..] + w)[n..] == s[1..][n..] + w;
    }
  }

  lemma {:induction false} ExtraThenSpace(extra: string, w: string)
    requires Spaces(w)
    ensures ExtraMatch(extra + w) == ExtraMatch(extra)
  {
    GroupThenSpace(extra, w, '-');
    if Group(extra, '-').Some? {
      var rest := Group(extra, '-').value.second;
      GroupThenSpace(rest, w, '+');
      if Group(rest, '+').Some? {
        SkipThenSpace(Group(rest, '+').value.second, w);
      }
    }
  }

  lemma {:induction false} MatchThenSpace(str: string, w: string)
    requires Spaces(w)
    ensures VersionMatch(str + w) ==
              if '\n' in w then None
              else match VersionMatch(str)
                case None => None
                case Some(Parts(numbers, extra)) => Some(Parts(numbers, extra + w))
  {
    SkipThenSpace(str, w);
    var s := SkipSpace(str);
    if s != [] {
      var t := if s[0] == 'v' then s[1..] else s;
      assert (if s[0] == 'v' then (s + w)[1..] else s + w) == t + w;
      DottedThenSpace(t, w, false);
      var n := DottedLen(t, false);
      assert (t + w)[..n] == t[..n] && (t + w)[n..] == t[n..] + w;
    }
  }

  /** The legality of an absent pre-release. */
  lemma {:induction false} NothingExtra(w: string)
    requires Spaces(w)
    ensures ExtraMatch(w) == Some(Parts([], [])) && forall id | id in Split([]) :: LegalIdentifier(id)
  {
    assert [] + w == w;
    ExtraThenSpace([], w);
  }

  /** White space at the end is ignored if it has no line break; with one, nothing parses. */
  lemma {:induction false} SpaceAtEnd(str: string, w: string, semver: bool)
    requires Spaces(w)
    ensures Parse(str + w, semver) == if '\n' in w then None else Parse(str, semver)
  {
    MatchThenSpace(str, w);
    if VersionMatch(str).Some? {
      var extra := VersionMatch(str).value.second;
      ExtraThenSpace(extra, w);
      if extra == [] {
        assert extra + w == w;
        NothingExtra(w);
      }
    }
  }

  /** White space at the end of a version string is ignored if and only if it has no line break. */
  lemma {:induction false} TrailingSpaceExactly(str: string, w: string, semver: bool)
    requires Spaces(w) && Parse(str, semver).Some?
    ensures Parse(str + w, semver) == Parse(str, semver) <==> '\n' !in w
  {
    SpaceAtEnd(str, w, semver);
  }

  /** White space in front is always ignored. */
  lemma {:induction false} LeadingSpaceIgnored(w: string, str: string, semver: bool)
    requires Spaces(w)
    ensures Parse(w + str, semver) == Parse(str, semver)
    decreases |w|
  {
    if w == [] {
      assert w + str == str;
    } else {
      assert (w + str)[1..] == w[1..] + str;
      LeadingSpaceIgnored(w[1..], str, semver);
    }
  }

  /** A v in front of a version changes nothing. */
  lemma {:induction false} LeadingVIgnored(str: string, semver: bool)
    requires str != [] && IsDigit(str[0])
    ensures Parse(['v'] + str, semver) == Parse(str, semver)
  {
    assert (['v'] + str)[1..] == str;
    assert SkipSpace(['v'] + str) == ['v'] + str && SkipSpace(str) == str;
  }

  /** Generic parsing ignores what follows the numbers, unless it has a line break. */
  lemma {:induction false} GenericIgnoresRest(v: Version, rest: string)
    requires GenericVersion(v) && rest != [] && !IsDigit(rest[0]) && rest[0] != '.'
    ensures Parse(String(v) + rest, false) == if '\n' in rest then None else Some(v)
  {
    NumbersDotted(v.components);
    var s := Numbers(v.components);
    assert String(v) == s;
    DottedThen(s, rest, false);
    assert SkipSpace(s + rest) == s + rest && SkipSpace(s) == s;
    GenericRoundTrip(v);
    DottedNoNewline(s, false);
    assert VersionMatch(s).value.first == s;
  }

  /** Every semantic version is read back from its text, and refused with a line break after it. */
  lemma {:induction false} LineBreakRefused(v: Version)
    requires SemanticVersion(v)
    ensures Parse(String(v), true) == Some(v) && Parse(String(v) + "\n", true) == None
  {
    SemanticRoundTrip(v);
    SpaceAtEnd(String(v), "\n", true);
  }

  lemma {:induction false} OneTwoThree()
    ensures String(Version([1, 2, 3], true, [], [])) == "1.2.3"
    ensures SemanticVersion(Version([1, 2, 3], true, [], []))
  {
    assert Dec(1) == "1" && Dec(2) == "2" && Dec(3) == "3";
    assert [1, 2, 3][1..] == [2, 3] && [2, 3][1..] == [3];
    assert Numbers([2, 3]) == "2.3";
  }

  lemma {:induction false} LineBreakAfterOneTwoThree()
    ensures Parse("1.2.3", true).Some? && Parse("1.2.3\n", true) == None
  {
    OneTwoThree();
    LineBreakRefused(Version([1, 2, 3], true, [], []));
    assert "1.2.3" + "\n" == "1.2.3\n";
  }
}
