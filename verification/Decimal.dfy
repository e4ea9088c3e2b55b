/** Decimal text of the big integers kept in the quota cache. */
module Decimal {
  predicate IsDigit(c: char) {
    '0' <= c <= '9'
  }

  predicate AllDigits(s: string) {
    forall i :: 0 <= i < |s| ==> IsDigit(s[i])
  }

  /** `n.toString()` of a non-negative bigint. */
  function Print(n: nat): (s: string)
    ensures |s| > 0 && AllDigits(s)
    ensures n > 0 ==> s[0] != '0'
  {
    if n < 10 then ['0' + n as char] else Print(n / 10) + ['0' + (n % 10) as char]
  }

  /** `BigInt(s)` of a string of decimal digits. */
  function Parse(s: string): nat
    requires AllDigits(s)
  {
    if s == "" then 0
    else Parse(s[..|s| - 1]) * 10 + (s[|s| - 1] - '0') as nat
  }

  function Pow10(n: nat): nat {
    if n == 0 then 1 else 10 * Pow10(n - 1)
  }

  // The digits have their usual values and places.
  lemma {:induction false} ParseIsPositional(a: string, b: string)
    requires AllDigits(a) && AllDigits(b)
    ensures Parse(a + b) == Parse(a) * Pow10(|b|) + Parse(b)
    ensures |b| == 1 ==> Parse(b) == b[0] as int - 48
    decreases |b|
  {
    if b == "" {
      assert a + b == a;
    } else {
      var init, last := b[..|b| - 1], b[|b| - 1];
      assert (a + b)[..|a + b| - 1] == a + init;
      ParseIsPositional(a, init);
      Shift(Parse(a), Pow10(|init|), Parse(init));
    }
  }

  lemma Shift(x: nat, p: nat, y: nat)
    ensures (x * p + y) * 10 == x * (10 * p) + y * 10
  {}

  // What was printed is read back, for every natural number.
  lemma {:induction false} ParsePrint(n: nat)
    ensures Parse(Print(n)) == n
  {
    if n >= 10 {
      var s := Print(n);
      assert s[..|s| - 1] == Print(n / 10);
      ParsePrint(n / 10);
    } else {
      assert Print(n)[..0] == "";
    }
  }

  // A decimal text without a leading zero is the one text of its number.
  lemma {:induction false} PrintParse(s: string)
    requires AllDigits(s) && |s| > 0
    requires s[0] == '0' ==> |s| == 1
    ensures s[0] != '0' ==> Parse(s) > 0
    ensures Print(Parse(s)) == s
  {
    var init, last := s[..|s| - 1], s[|s| - 1];
    if init == "" {
      assert Parse(s) == (last - '0') as nat;
    } else {
      PrintParse(init);
      assert Parse(s) / 10 == Parse(init) && Parse(s) % 10 == (last - '0') as nat;
    }
  }
}
