/** Decimal numbers as text: reading digits, and the text that is printed for a number. */
module Decimals {
  import opened NameCodec

  predicate AllDigits(s: string) {
    |s| > 0 && forall i :: 0 <= i < |s| ==> '0' <= s[i] <= '9'
  }

  function Values(s: string): (v: seq<int>)
    ensures |v| == |s|
  {
    seq(|s|, i requires 0 <= i < |s| => s[i] as int - '0' as int)
  }

  function Decimal(s: string): int {
    Number(Values(s), 10)
  }

  /** The text of a number, without leading zeros. */
  function Printed(n: nat): string {
    if n < 10 then [('0' as int + n) as char] else Printed(n / 10) + [('0' as int + n % 10) as char]
  }

  /** A negative number is printed with a minus sign. */
  function PrintedInt(n: int): string {
    if n < 0 then "-" + Printed(-n) else Printed(n)
  }

  lemma DigitAppended(s: string, d: nat)
    requires d < 10 && forall i :: 0 <= i < |s| ==> '0' <= s[i] <= '9'
    ensures AllDigits(s + [('0' as int + d) as char])
    ensures Decimal(s + [('0' as int + d) as char]) == Decimal(s) * 10 + d
  {
    assert Values(s + [('0' as int + d) as char]) == Values(s) + [d];
    NumberGrows(Values(s), d, 10);
  }

  lemma NoDigits()
    ensures Decimal("") == 0
  {
  }

  /** Reading a printed number gives it back, also after a zero. */
  lemma {:induction false} PrintedIsRead(n: nat)
    ensures AllDigits(Printed(n)) && Decimal(Printed(n)) == n
    ensures Decimal("0" + Printed(n)) == n
  {
    hide Decimal;
    var digit := ('0' as int + n % 10) as char;
    NoDigits();
    DigitAppended("", 0);
    assert "" + ['0'] == "0";
    if n < 10 {
      DigitAppended("", n);
      assert "" + [digit] == [digit] == Printed(n);
      DigitAppended("0", n);
    } else {
      PrintedIsRead(n / 10);
      DigitAppended(Printed(n / 10), n % 10);
      DigitAppended("0" + Printed(n / 10), n % 10);
      assert ("0" + Printed(n / 10)) + [digit] == "0" + Printed(n);
    }
  }
}
