/** Decimal text of an integer, as `str` and f-strings print it. */
module Decimal {

  function Digit(d: int): (c: char)
    requires 0 <= d < 10
    ensures '0' <= c <= '9' && (c as int) == 48 + d
  {
    (48 + d) as char
  }

  function NatText(n: nat): (s: string)
    ensures s != "" && s[0] != '-'
  {
    if n < 10 then [Digit(n)] else NatText(n / 10) + [Digit(n % 10)]
  }

  function IntText(n: int): string {
    if n < 0 then "-" + NatText(-n) else NatText(n)
  }

  lemma {:induction false} NatTextInjective(m: nat, n: nat)
    requires NatText(m) == NatText(n)
    ensures m == n
  {
    var s, t := NatText(m), NatText(n);
    assert s[|s| - 1] == t[|t| - 1];
    if m >= 10 && n >= 10 {
      assert s[..|s| - 1] == NatText(m / 10) && t[..|t| - 1] == NatText(n / 10);
      NatTextInjective(m / 10, n / 10);
    }
  }

  lemma IntTextInjective(m: int, n: int)
    requires IntText(m) == IntText(n)
    ensures m == n
  {
    if m < 0 && n < 0 {
      assert IntText(m)[1..] == NatText(-m) && IntText(n)[1..] == NatText(-n);
      NatTextInjective(-m, -n);
    } else if m >= 0 && n >= 0 {
      NatTextInjective(m, n);
    }
  }

  /** The number that a text of decimal digits writes, most significant digit first. */
  function Parsed(s: string): int {
    if s == "" then 0 else Parsed(s[..|s| - 1]) * 10 + (s[|s| - 1] as int - '0' as int)
  }

  /** The text of a number consists of digits, writes that number, and starts with no needless zero. */
  lemma {:induction false} NatTextWrites(n: nat)
    ensures var s := NatText(n);
            Parsed(s) == n && (forall c | c in s :: '0' <= c <= '9') && (s[0] == '0' ==> n == 0)
  {
    if n >= 10 {
      NatTextWrites(n / 10);
      assert NatText(n)[..|NatText(n)| - 1] == NatText(n / 10);
    } else {
      assert NatText(n)[..0] == "";
    }
  }

  lemma IntTextWrites(n: int)
    ensures if n < 0 then IntText(n)[0] == '-' && Parsed(IntText(n)[1..]) == -n else Parsed(IntText(n)) == n
  {
    NatTextWrites(if n < 0 then -n else n);
  }
}
