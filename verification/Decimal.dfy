// Integers as the text the state table keeps them in.
module Decimal {
  import opened Options

  const INT64_LIMIT: int := 0x8000_0000_0000_0000

  predicate InInt64(n: int) { -INT64_LIMIT <= n < INT64_LIMIT }

  function DigitChar(d: int): char
    requires 0 <= d < 10
  {
    "0123456789"[d]
  }

  function Unsigned(n: nat): string {
    if n < 10 then [DigitChar(n)] else Unsigned(n / 10) + [DigitChar(n % 10)]
  }

  function Render(n: int): string {
    if n < 0 then "-" + Unsigned(-n) else Unsigned(n)
  }

  predicate IsDigit(c: char) { '0' <= c <= '9' }

  function ParseUnsigned(text: string): Option<nat> {
    if text == [] then None
    else
      var last := text[|text| - 1];
      if !IsDigit(last) then None
      else
        var digit := last as int - '0' as int;
        if |text| == 1 then Some(digit)
        else match ParseUnsigned(text[..|text| - 1])
          case Some(head) => Some(head * 10 + digit)
          case None => None
  }

  function Signed(negative: bool, n: int): int {
    if negative then -n else n
  }

  // A 64-bit integer, or nothing when the text is not one.
  function ParseInt64(text: string): Option<int> {
    if text == [] then None
    else
      var parsed := if text[0] == '-' || text[0] == '+' then ParseUnsigned(text[1..]) else ParseUnsigned(text);
      match parsed
      case None => None
      case Some(n) =>
        var value := Signed(text[0] == '-', n);
        if InInt64(value) then Some(value) else None
  }

  lemma {:induction false} UnsignedRoundTrip(n: nat)
    ensures ParseUnsigned(Unsigned(n)) == Some(n)
    ensures Unsigned(n) != [] && IsDigit(Unsigned(n)[0])
  {
    if n >= 10 {
      UnsignedRoundTrip(n / 10);
      var text := Unsigned(n);
      assert text[..|text| - 1] == Unsigned(n / 10);
    }
  }

  // What was written as text reads back as the same number.
  lemma RoundTrip(n: int)
    requires InInt64(n)
    ensures ParseInt64(Render(n)) == Some(n)
  {
    if n < 0 {
      UnsignedRoundTrip(-n);
      assert Render(n)[1..] == Unsigned(-n);
    } else {
      UnsignedRoundTrip(n);
    }
  }
}
