/** Decimal text of integers: Python's `str(n)` and `int(s)` on the values the math generator
    uses, and the palindrome test `str(n) == str(n)[::-1]`. */
module Decimal {
  import opened Sequences

  predicate IsDigit(c: char) {
    '0' <= c <= '9'
  }

  predicate AllDigits(s: string) {
    forall i :: 0 <= i < |s| ==> IsDigit(s[i])
  }

  /** The form `str` gives a non-negative integer: digits only, no leading zero except in "0". */
  predicate Canonical(s: string) {
    |s| >= 1 && AllDigits(s) && (|s| > 1 ==> s[0] != '0')
  }

  function DigitChar(d: nat): (c: char)
    requires d < 10
    ensures IsDigit(c)
  {
    ('0' as int + d) as char
  }

  function DigitValue(c: char): (d: nat)
    requires IsDigit(c)
    ensures d < 10 && DigitChar(d) == c
  {
    c as int - '0' as int
  }

  /** `str(n)` for `n >= 0`. */
  function NatToString(n: nat): (s: string)
    ensures Canonical(s)
    ensures n > 0 ==> s[0] != '0'
    ensures n < 10 <==> |s| == 1
  {
    if n < 10 then [DigitChar(n)] else NatToString(n / 10) + [DigitChar(n % 10)]
  }

  /** `str(n)` for any integer: a minus sign before the digits of `-n` when `n` is negative. */
  function IntToString(n: int): (s: string)
    ensures |s| >= 1
    ensures n < 0 <==> s[0] == '-'
  {
    if n < 0 then "-" + NatToString(-n) else NatToString(n)
  }

  /** `int(s)` for a string of digits. */
  function Parse(s: string): nat
    requires AllDigits(s)
  {
    if s == [] then 0 else Parse(s[..|s| - 1]) * 10 + DigitValue(s[|s| - 1])
  }

  /** Reading back the decimal text of `n` gives `n`. */
  lemma {:induction false} ParseNatToString(n: nat)
    ensures Parse(NatToString(n)) == n
  {
    if n >= 10 {
      var s := NatToString(n);
      assert s[..|s| - 1] == NatToString(n / 10);
      ParseNatToString(n / 10);
    }
  }

  /** A digit string without a leading zero reads as a positive number. */
  lemma {:induction false} ParsePositive(s: string)
    requires |s| >= 1 && AllDigits(s) && s[0] != '0'
    ensures Parse(s) >= 1
  {
    if |s| > 1 {
      ParsePositive(s[..|s| - 1]);
    }
  }

  lemma DivModTen(x: nat, d: nat)
    requires d < 10
    ensures (x * 10 + d) / 10 == x && (x * 10 + d) % 10 == d
  {
  }

  /** The decimal text of a number of two or more digits is that of its leading part
      followed by its last digit. */
  lemma NatToStringStep(x: nat, d: nat)
    requires x >= 1 && d < 10
    ensures NatToString(x * 10 + d) == NatToString(x) + [DigitChar(d)]
  {
    DivModTen(x, d);
  }

  lemma CanonicalInit(s: string)
    requires Canonical(s) && |s| > 1
    ensures Canonical(s[..|s| - 1]) && s[0] != '0'
  {
  }

  /** Printing the number a canonical digit string denotes gives the string back. */
  lemma {:induction false} NatToStringParse(s: string)
    requires Canonical(s)
    ensures NatToString(Parse(s)) == s
  {
    if |s| > 1 {
      var init, last := s[..|s| - 1], s[|s| - 1];
      CanonicalInit(s);
      ParsePositive(init);
      NatToStringStep(Parse(init), DigitValue(last));
      NatToStringParse(init);
      assert s == init + [last];
    }
  }

  predicate IsPalindrome(s: string) {
    s == Reverse(s)
  }

  /** A string followed by its reversal reads the same both ways. */
  lemma MirrorIsPalindrome(s: string)
    ensures IsPalindrome(s + Reverse(s))
  {
    ReverseConcat(s, Reverse(s));
    ReverseReverse(s);
  }

  /** Two-digit and three-digit numbers print as two and three characters. */
  lemma HalfLength(h: int)
    requires 10 <= h <= 999
    ensures |NatToString(h)| == if h < 100 then 2 else 3
  {
    if h >= 100 {
      assert |NatToString(h / 10)| == 2;
    }
  }
}
