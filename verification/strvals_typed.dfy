/** What typed mode makes of a text (typedVal of pkg/strvals/parser.go). */
module StrvalsTyped {
  import opened Decimal
  import opened Options
  import opened StrvalsValues

  /** The plain text of a value that is neither a string nor a collection. */
  function Plain(v: Value): string
    requires v.Nil? || v.Bool? || v.Int?
  {
    match v
    case Nil => "null"
    case Bool(b) => if b then "true" else "false"
    case Int(i) => if i < 0 then ['-'] + Dec(-i) else Dec(i)
  }

  lemma {:induction false} IntWordsApart(i: int)
    ensures
      var s := Plain(Int(i));
      !EqualFold(s, "true") && !EqualFold(s, "false") && !EqualFold(s, "null") && (EqualFold(s, "0") <==> i == 0)
  {
    var s := Plain(Int(i));
    assert IsDigit(s[0]) || s[0] == '-';
    assert FoldRune(s[0]) == s[0];
    if i >= 0 {
      ValDec(i);
      assert Dec(0) == "0";
      if |s| == 1 && s[0] == '0' {
        assert s == "0" && s[..0] == [] && Val(s) == 0;
      }
    }
  }

  lemma {:induction false} PositiveTyped(i: nat)
    requires 0 < i < INT64_LIMIT
    ensures TypedVal(Dec(i), false) == Int(i)
  {
    IntWordsApart(i);
    AtoiDec(i);
    ValDec(i);
    assert "0"[..0] == [] && Val("0") == 0;
  }

  lemma {:induction false} NegativeTyped(i: int)
    requires 0 < i <= INT64_LIMIT
    ensures TypedVal(['-'] + Dec(i), false) == Int(-i)
  {
    IntWordsApart(-i);
    ValDec(i);
    assert (['-'] + Dec(i))[1..] == Dec(i);
  }

  lemma {:induction false} ZeroTyped()
    ensures TypedVal(Dec(0), false) == Int(0)
  {
    IntWordsApart(0);
  }

  predicate IsCase(c: char, lower: char) {
    c == lower || ('a' <= lower <= 'z' && c as int == lower as int - 'a' as int + 'A' as int)
  }

  /** The word in any mixture of cases. */
  predicate InSomeCase(s: string, word: string) {
    |s| == |word| && forall i | 0 <= i < |s| :: IsCase(s[i], word[i])
  }

  predicate LowerCase(word: string) {
    forall i | 0 <= i < |word| :: 'a' <= word[i] <= 'z'
  }

  lemma {:induction false} CaseFolds(s: string, word: string)
    requires InSomeCase(s, word) && LowerCase(word)
    ensures EqualFold(s, word)
  {
  }

  lemma {:induction false} TrueTyped(s: string)
    requires InSomeCase(s, "true")
    ensures TypedVal(s, false) == Bool(true)
  {
    CaseFolds(s, "true");
  }

  lemma {:induction false} FalseTyped(s: string)
    requires InSomeCase(s, "false")
    ensures TypedVal(s, false) == Bool(false)
  {
    CaseFolds(s, "false");
    assert |s| != |"true"|;
  }

  lemma {:induction false} NullTyped(s: string)
    requires InSomeCase(s, "null")
    ensures TypedVal(s, false) == Nil
  {
    CaseFolds(s, "null");
    assert FoldRune(s[0]) == 'n' && "true"[0] == 't' && |"false"| == 5;
  }

  /** Nothing, truth values and 64-bit numbers are read back from their plain text. */
  lemma {:induction false} PlainTyped(v: Value)
    requires v.Nil? || v.Bool? || (v.Int? && -INT64_LIMIT <= v.i < INT64_LIMIT)
    ensures TypedVal(Plain(v), false) == v
  {
    match v
    case Nil => NullTyped("null");
    case Bool(b) =>
      if b {
        TrueTyped("true");
      } else {
        FalseTyped("false");
      }
    case Int(i) =>
      if i > 0 {
        PositiveTyped(i);
      } else if i < 0 {
        NegativeTyped(-i);
      } else {
        ZeroTyped();
      }
  }

  /** Digits after a leading zero stay text: 007 is no number. */
  lemma {:induction false} LeadingZeroIsText(s: string)
    requires |s| > 1 && s[0] == '0'
    ensures TypedVal(s, false) == Str(s)
  {
    assert FoldRune(s[0]) == '0';
  }

  /** A text stays a string, unchanged, exactly when it is no word, not zero and no 64-bit number without a
      leading zero; in string mode always. */
  lemma {:induction false} TextStaysExactly(s: string)
    ensures TypedVal(s, true) == Str(s)
    ensures TypedVal(s, false).Str? ==> TypedVal(s, false) == Str(s)
    ensures TypedVal(s, false).Str? <==>
              && !EqualFold(s, "true") && !EqualFold(s, "false") && !EqualFold(s, "null") && s != "0"
              && (s == [] || s[0] == '0' || Atoi(s).None?)
  {
    if EqualFold(s, "0") {
      assert s == [s[0]] && FoldRune(s[0]) == '0' && s[0] == '0';
    }
    if s == "0" {
      assert FoldRune(s[0]) == '0';
    }
  }
}
