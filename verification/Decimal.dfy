/** Decimal printing, as sprintf does it for unsigned and signed 64-bit integers. */
module Decimal {
  const WORD: nat := 0x1_0000_0000_0000_0000

  function Digit(d: nat): char
    requires d < 10
  {
    '0' + d as char
  }

  predicate IsDigit(c: char) {
    '0' <= c <= '9'
  }

  function Print(n: nat): string {
    if n < 10 then [Digit(n)] else Print(n / 10) + [Digit(n % 10)]
  }

  function PrintSigned(n: int): string {
    if n < 0 then "-" + Print(-n) else Print(n)
  }

  /** The number a string of digits stands for. */
  function Value(s: string): nat
    requires forall c :: c in s ==> IsDigit(c)
  {
    if s == "" then 0
    else
      assert IsDigit(s[|s| - 1]);
      10 * Value(s[..|s| - 1]) + (s[|s| - 1] - '0') as nat
  }

  function Power(k: nat): nat {
    if k == 0 then 1 else 10 * Power(k - 1)
  }

  lemma {:induction false} PrintDigits(n: nat)
    ensures Print(n) != "" && forall c :: c in Print(n) ==> IsDigit(c)
  {
    if n >= 10 { PrintDigits(n / 10); }
  }

  lemma {:induction false} ValueOfPrint(n: nat)
    ensures (forall c :: c in Print(n) ==> IsDigit(c)) && Value(Print(n)) == n
  {
    PrintDigits(n);
    if n < 10 {
      assert Print(n)[..0] == "";
    } else {
      ValueOfPrint(n / 10);
      assert Print(n)[..|Print(n)| - 1] == Print(n / 10);
    }
  }

  /** The sign and the digits of a signed integer give it back. */
  lemma SignedBack(n: int)
    ensures
      var text := PrintSigned(n);
      var digits := if n < 0 then text[1..] else text;
      && (n < 0 ==> text == ['-'] + digits) && digits != ""
      && (forall c :: c in digits ==> IsDigit(c)) && Value(digits) == if n < 0 then -n else n
  {
    var m: nat := if n < 0 then -n else n;
    PrintDigits(m);
    ValueOfPrint(m);
    if n < 0 { assert PrintSigned(n)[1..] == Print(m); }
  }

  lemma {:induction false} PrintLength(n: nat, k: nat)
    requires k > 0
    ensures |Print(n)| <= k <==> n < Power(k)
  {
    if k == 1 {
      assert Power(1) == 10;
      if n >= 10 { PrintDigits(n / 10); }
    } else if n >= 10 {
      PrintLength(n / 10, k - 1);
    } else {
      PowerPositive(k - 1);
    }
  }

  lemma {:induction false} PowerPositive(k: nat)
    ensures Power(k) >= 1
  {
    if k > 0 { PowerPositive(k - 1); }
  }

  lemma PowerTwenty()
    ensures Power(20) == 100_000_000_000_000_000_000 && Power(19) == 10_000_000_000_000_000_000
  {
    assert Power(5) == 100_000;
    assert Power(10) == 10_000_000_000;
    assert Power(15) == 1_000_000_000_000_000;
  }

  /** The text of an unsigned or signed 64-bit integer fits 20 characters. */
  lemma WordLength(n: int)
    ensures 0 <= n < WORD ==> |Print(n)| <= 20
    ensures -(WORD / 2) <= n < WORD / 2 ==> |PrintSigned(n)| <= 20
  {
    PowerTwenty();
    if 0 <= n { PrintLength(n, 20); } else { PrintLength(-n, 19); }
  }
}
