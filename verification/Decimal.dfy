/** Decimal numerals, as they appear in status messages. */
module Decimal {

  function DigitChar(d: nat): char
    requires d < 10
  {
    '0' + d as char
  }

  function Digits(n: nat): string {
    if n < 10 then [DigitChar(n)] else Digits(n / 10) + [DigitChar(n % 10)]
  }

  function Itoa(n: int): string {
    if n < 0 then "-" + Digits(-n) else Digits(n)
  }

  predicate IsDigit(c: char) {
    '0' <= c <= '9'
  }

  function ValueOf(s: string): int
  {
    if |s| == 0 then 0 else 10 * ValueOf(s[..|s| - 1]) + (s[|s| - 1] as int - '0' as int)
  }

  lemma {:induction false} DigitsAreDigits(n: nat)
    ensures |Digits(n)| > 0 && forall i :: 0 <= i < |Digits(n)| ==> IsDigit(Digits(n)[i])
    ensures ValueOf(Digits(n)) == n
  {
    if n >= 10 {
      DigitsAreDigits(n / 10);
      assert Digits(n)[..|Digits(n)| - 1] == Digits(n / 10);
    }
  }

  /** Different numbers print differently, and no numeral contains a blank or a slash. */
  lemma ItoaInjective(m: int, n: int)
    ensures Itoa(m) == Itoa(n) ==> m == n
    ensures ' ' !in Itoa(m) && '/' !in Itoa(m)
  {
    var a, b := if m < 0 then -m else m, if n < 0 then -n else n;
    DigitsAreDigits(a);
    DigitsAreDigits(b);
    if Itoa(m) == Itoa(n) {
      assert m < 0 <==> Itoa(m)[0] == '-';
      assert n < 0 <==> Itoa(n)[0] == '-';
      assert m < 0 ==> Digits(a) == Itoa(m)[1..] && Digits(b) == Itoa(n)[1..];
    }
  }

  function LastIndex(s: string, c: char): int {
    if |s| == 0 then -1 else if s[|s| - 1] == c then |s| - 1 else LastIndex(s[..|s| - 1], c)
  }

  lemma {:induction false} LastIndexIs(x: string, c: char, y: string)
    requires c !in y
    ensures LastIndex(x + [c] + y, c) == |x|
    decreases |y|
  {
    var s := x + [c] + y;
    if |y| > 0 {
      var short := y[..|y| - 1];
      assert s[|s| - 1] == y[|y| - 1];
      assert s[..|s| - 1] == x + [c] + short;
      LastIndexIs(x, c, short);
    }
  }

  /** What follows the last occurrence of a character is determined by the text. */
  lemma LastPieceUnique(x1: string, x2: string, c: char, y1: string, y2: string)
    requires x1 + [c] + y1 == x2 + [c] + y2
    requires c !in y1 && c !in y2
    ensures x1 == x2 && y1 == y2
  {
    LastIndexIs(x1, c, y1);
    LastIndexIs(x2, c, y2);
    var s := x1 + [c] + y1;
    assert s == x2 + [c] + y2;
    assert x1 == s[..|x1|] && y1 == s[|x1| + 1..];
    assert x2 == s[..|x2|] && y2 == s[|x2| + 1..];
  }
}
