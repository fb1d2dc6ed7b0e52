/** Decimal numerals as Go's strconv and fmt read and write them. */
module Decimal {
  import opened Options

  const UINT64_LIMIT: nat := 0x1_0000_0000_0000_0000
  const INT64_LIMIT: int := 0x8000_0000_0000_0000

  predicate IsDigit(c: char) {
    '0' <= c <= '9'
  }

  predicate AllDigits(s: string) {
    forall i | 0 <= i < |s| :: IsDigit(s[i])
  }

  function DigitOf(c: char): nat
    requires IsDigit(c)
  {
    c as int - '0' as int
  }

  function CharOf(d: nat): (c: char)
    requires d < 10
    ensures IsDigit(c) && DigitOf(c) == d
  {
    ('0' as int + d) as char
  }

  /** The number a digit string denotes, leading zeros allowed. */
  function Val(s: string): nat
    requires AllDigits(s)
  {
    if s == [] then 0 else Val(s[..|s| - 1]) * 10 + DigitOf(s[|s| - 1])
  }

  /** The numeral fmt's %d prints for an unsigned number. */
  function Dec(n: nat): (s: string)
    ensures s != [] && AllDigits(s)
    ensures s[0] == '0' ==> s == "0"
  {
    if n < 10 then [CharOf(n)] else Dec(n / 10) + [CharOf(n % 10)]
  }

  lemma {:induction false} ValDec(n: nat)
    ensures Val(Dec(n)) == n
  {
    if n >= 10 {
      ValDec(n / 10);
      assert Dec(n)[..|Dec(n)| - 1] == Dec(n / 10);
    }
  }

  /** A canonical numeral is the one Dec prints for its value. */
  lemma {:induction false} DecVal(s: string)
    requires s != [] && AllDigits(s) && (s[0] == '0' ==> s == "0")
    ensures Dec(Val(s)) == s
  {
    var init, d := s[..|s| - 1], DigitOf(s[|s| - 1]);
    if |s| > 1 {
      DecVal(init);
      ValPositive(init);
      assert Val(s) / 10 == Val(init) && Val(s) % 10 == d;
    } else {
      assert init == [] && s == [s[0]];
    }
    assert s == init + [s[|s| - 1]];
  }

  lemma {:induction false} ValPositive(s: string)
    requires s != [] && AllDigits(s) && s[0] != '0'
    ensures Val(s) > 0
  {
    if |s| > 1 {
      ValPositive(s[..|s| - 1]);
    } else {
      assert s[..0] == [];
      assert Val(s) == DigitOf(s[0]);
    }
  }

  /** strconv.ParseUint(s, 10, 0) on a 64-bit platform. */
  function ParseUint(s: string): Option<nat> {
    if s != [] && AllDigits(s) && Val(s) < UINT64_LIMIT then Some(Val(s)) else None
  }

  /** strconv.Atoi and strconv.ParseInt(s, 10, 64). */
  function Atoi(s: string): Option<int> {
    var signed := s != [] && (s[0] == '-' || s[0] == '+');
    var digits := if signed then s[1..] else s;
    if digits == [] || !AllDigits(digits) then None
    else
      var v: int := Val(digits);
      var n := if s[0] == '-' then -v else v;
      if -INT64_LIMIT <= n < INT64_LIMIT then Some(n) else None
  }

  lemma AtoiDec(n: nat)
    ensures Atoi(Dec(n)) == if n < INT64_LIMIT then Some(n) else None
  {
    ValDec(n);
  }
}
