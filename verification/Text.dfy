// Decimal text.

module Text {

  function Digit(d: int): (c: char)
    requires 0 <= d < 10
  {
    "0123456789"[d]
  }

  /** `std::to_string` of a natural number. */
  function Decimal(n: nat): (s: string)
    ensures s != []
    ensures forall i :: 0 <= i < |s| ==> '0' <= s[i] <= '9'
  {
    if n < 10 then [Digit(n)] else Decimal(n / 10) + [Digit(n % 10)]
  }
}
