/**
 * Decimal text of integers, as JavaScript renders a number inside a template
 * string (`${n}`) or with `toString()`, together with its inverse, and the
 * `slice(0, -k)` operation that the random route applies to such text.
 */
module Decimal {

  predicate IsDigit(c: char) {
    '0' <= c <= '9'
  }

  function DigitValue(c: char): nat {
    if IsDigit(c) then c as int - '0' as int else 0
  }

  function DigitChar(d: nat): (c: char)
    requires d < 10
    ensures IsDigit(c) && DigitValue(c) == d
  {
    ('0' as int + d) as char
  }

  predicate AllDigits(s: string) {
    forall i :: 0 <= i < |s| ==> IsDigit(s[i])
  }

  /** The shortest decimal text of `n`: no sign, no leading zero. */
  function NatToString(n: nat): (s: string)
    ensures |s| > 0 && AllDigits(s)
    ensures |s| == 1 <==> n < 10
    ensures n > 0 ==> s[0] != '0'
  {
    if n < 10 then [DigitChar(n)] else NatToString(n / 10) + [DigitChar(n % 10)]
  }

  /** The decimal text of an integer: a leading '-' exactly for negative values. */
  function IntToString(i: int): (s: string)
    ensures |s| > 0
    ensures s[0] == '-' <==> i < 0
    ensures forall k :: 0 <= k < |s| ==> IsDigit(s[k]) || (k == 0 && s[k] == '-')
  {
    if i < 0 then "-" + NatToString(-i) else NatToString(i)
  }

  /** Reads decimal digits back into a number (the partner of NatToString). */
  function ParseNat(s: string): nat {
    if s == [] then 0 else ParseNat(s[..|s| - 1]) * 10 + DigitValue(s[|s| - 1])
  }

  /** Reads an optionally signed decimal text back into a number (the partner of IntToString). */
  function ParseInt(s: string): int {
    if |s| > 0 && s[0] == '-' then 0 - ParseNat(s[1..]) else ParseNat(s)
  }

  lemma {:induction false} ParseNatInverse(n: nat)
    ensures ParseNat(NatToString(n)) == n
  {
    if n >= 10 {
      var s := NatToString(n);
      assert s[..|s| - 1] == NatToString(n / 10);
      ParseNatInverse(n / 10);
    }
  }

  lemma ParseIntInverse(i: int)
    ensures ParseInt(IntToString(i)) == i
  {
    if i < 0 {
      var s := IntToString(i);
      assert s[1..] == NatToString(-i);
      ParseNatInverse(-i);
    } else {
      ParseNatInverse(i);
    }
  }

  /** Distinct integers have distinct decimal texts. */
  lemma IntToStringInjective(a: int, b: int)
    ensures IntToString(a) == IntToString(b) <==> a == b
  {
    ParseIntInverse(a);
    ParseIntInverse(b);
  }

  lemma NatToStringInjective(a: nat, b: nat)
    ensures NatToString(a) == NatToString(b) <==> a == b
  {
    ParseNatInverse(a);
    ParseNatInverse(b);
  }

  /** JavaScript's `s.slice(0, -k)` for k > 0: everything but the last k characters, "" if no more are left. */
  function DropLast(s: string, k: nat): (r: string)
    requires k > 0
    ensures |r| == if |s| > k then |s| - k else 0
    ensures r <= s
  {
    if |s| > k then s[..|s| - k] else ""
  }

  /** n with its last k decimal digits removed (k integer divisions by ten). */
  function DropDigits(n: nat, k: nat): nat {
    if k == 0 then n else DropDigits(n, k - 1) / 10
  }

  lemma DropLastTwice(s: string, k: nat)
    requires k > 0
    ensures DropLast(s, k + 1) == DropLast(DropLast(s, k), 1)
  {
  }

  /**
   * Cutting the last k characters off the decimal text of n gives the decimal
   * text of n with its last k digits removed, or "" when nothing is left.
   */
  lemma {:induction false} DropLastDigits(n: nat, k: nat)
    requires k > 0
    ensures DropLast(NatToString(n), k) == if DropDigits(n, k) > 0 then NatToString(DropDigits(n, k)) else ""
  {
    if k > 1 {
      DropLastDigits(n, k - 1);
      DropLastTwice(NatToString(n), k - 1);
    }
  }

  /** Removing five decimal digits is dividing by 100000. */
  lemma DropFiveDigits(n: nat)
    ensures DropDigits(n, 5) == n / 100000
  {
    var q1 := n / 10;
    assert DropDigits(n, 1) == q1;
    var q2 := q1 / 10;
    assert DropDigits(n, 2) == q2;
    var q3 := q2 / 10;
    assert DropDigits(n, 3) == q3;
    var q4 := q3 / 10;
    assert DropDigits(n, 4) == q4;
    var q5 := q4 / 10;
    assert DropDigits(n, 5) == q5;
    assert n == 100000 * q5 + 10000 * (q4 % 10) + 1000 * (q3 % 10) + 100 * (q2 % 10) + 10 * (q1 % 10) + n % 10;
  }
}
