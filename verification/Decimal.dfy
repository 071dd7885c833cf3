/** Numbers as Python prints them. */
module Decimal {

  function Digits(n: nat): string {
    if n < 10 then ["0123456789"[n]] else Digits(n / 10) + ["0123456789"[n % 10]]
  }

  /** `str(n)` */
  function Number(n: int): string { if n < 0 then "-" + Digits(-n) else Digits(n) }

  /** What a string of decimal digits says. */
  function Value(s: string): int {
    if s == "" then 0 else Value(s[..|s| - 1]) * 10 + (s[|s| - 1] as int - '0' as int)
  }

  lemma {:induction false} DigitsRead(n: nat)
    ensures Value(Digits(n)) == n && Digits(n) != "" && forall c :: c in Digits(n) ==> '0' <= c <= '9'
  {
    var last := "0123456789"[n % 10];
    assert last as int == '0' as int + n % 10;
    if n < 10 {
      assert Digits(n)[..0] == "";
    } else {
      DigitsRead(n / 10);
      assert Digits(n)[..|Digits(n)| - 1] == Digits(n / 10);
    }
  }
}
