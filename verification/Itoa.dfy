/** itoa: int64 to decimal in a 20-byte buffer, filled backwards. */
module Itoa {
  import opened Core

  const MIN_INT64 := -0x8000_0000_0000_0000
  const MAX_INT64 := 0x7FFF_FFFF_FFFF_FFFF

  type Int64 = x: int | MIN_INT64 <= x <= MAX_INT64

  /** Two's complement negation wraps at the smallest value. */
  function Negate(n: Int64): Int64 {
    if n == MIN_INT64 then MIN_INT64 else -n
  }

  function Digit(d: int): char
    requires 0 <= d < 10
  {
    '0' + d as char
  }

  predicate IsDigit(c: char) {
    '0' <= c <= '9'
  }

  /** Reading decimal text back. */
  function ParseNat(s: string): Option<nat> {
    if s == "" || !IsDigit(s[|s| - 1]) then None
    else if |s| == 1 then Some((s[0] - '0') as nat)
    else
      match ParseNat(s[..|s| - 1])
      case None => None
      case Some(n) => Some(10 * n + (s[|s| - 1] - '0') as nat)
  }

  function Parse(s: string): Option<int> {
    if s != "" && s[0] == '-' then
      match ParseNat(s[1..])
      case None => None
      case Some(n) => Some(-(n as int))
    else
      match ParseNat(s)
      case None => None
      case Some(n) => Some(n as int)
  }

  /** The digits of n > 0, most significant first. */
  function Digits(n: nat): (s: string)
    ensures n > 0 ==> s != "" && s[0] != '0'
    ensures forall c :: c in s ==> IsDigit(c)
  {
    if n == 0 then "" else Digits(n / 10) + [Digit(n % 10)]
  }

  function Power(k: nat): (p: nat)
    ensures p > 0
  {
    if k == 0 then 1 else 10 * Power(k - 1)
  }

  lemma {:induction false} DigitsFit(n: nat, k: nat)
    requires n < Power(k)
    ensures |Digits(n)| <= k
  {
    if n > 0 {
      DigitsFit(n / 10, k - 1);
    }
  }

  lemma {:induction false} DigitsParse(n: nat)
    requires n > 0
    ensures ParseNat(Digits(n)) == Some(n)
  {
    var s := Digits(n);
    assert s[|s| - 1] == Digit(n % 10) && s[..|s| - 1] == Digits(n / 10);
    if n >= 10 {
      DigitsParse(n / 10);
    }
  }

  /** The decimal form of n; the smallest int64 comes out as a lone minus sign. */
  function Decimal(n: Int64): string {
    if n == 0 then "0" else if n == MIN_INT64 then "-" else if n < 0 then "-" + Digits(-n) else Digits(n)
  }

  lemma {:induction false} PowerAdds(a: nat, b: nat)
    ensures Power(a + b) == Power(a) * Power(b)
  {
    if a > 0 {
      PowerAdds(a - 1, b);
      assert Power(a) * Power(b) == 10 * (Power(a - 1) * Power(b));
    }
  }

  lemma NineteenDigits()
    ensures MAX_INT64 < Power(19)
  {
    PowerAdds(9, 10);
    PowerAdds(4, 5);
    PowerAdds(5, 5);
    assert Power(2) == 100 && Power(4) == 10_000 && Power(5) == 100_000;
  }

  lemma AtMostNineteen(n: nat)
    requires n <= MAX_INT64
    ensures |Digits(n)| <= 19
  {
    NineteenDigits();
    DigitsFit(n, 19);
  }

  /** The text of one character more in front. */
  lemma InFront(digits: string, c: char, written: string)
    ensures digits + [c] + written == digits + ([c] + written)
  {
  }

  method Itoa(n: Int64) returns (s: string)
    ensures s == Decimal(n)
  {
    if n == 0 {
      return "0";
    }
    var buf := new char[20](_ => '\0');
    var pos := buf.Length;
    var neg := n < 0;
    var m: Int64 := if neg then Negate(n) else n;
    ghost var whole := if m > 0 then m else 0;
    AtMostNineteen(whole);
    while m > 0
      invariant 0 <= pos <= 20
      invariant Digits(whole) == Digits(if m > 0 then m else 0) + buf[pos..]
      decreases m
    {
      ghost var written := buf[pos..];
      InFront(Digits(m / 10), Digit(m % 10), written);
      pos := pos - 1;
      buf[pos] := Digit(m % 10);
      assert buf[pos..] == [Digit(m % 10)] + written;
      m := m / 10;
    }
    if neg {
      pos := pos - 1;
      buf[pos] := '-';
    }
    s := buf[pos..];
  }

  /** Printing round-trips exactly when n is not the smallest int64; there it yields a lone minus sign. */
  lemma PrintingRoundTrips(n: Int64)
    ensures Parse(Decimal(n)) == Some(n as int) <==> n != MIN_INT64
    ensures n == MIN_INT64 ==> Decimal(n) == "-" && Parse(Decimal(n)).None?
  {
    if n > 0 {
      DigitsParse(n);
      NoSign(Digits(n));
    } else if n < 0 && n != MIN_INT64 {
      NegativeParses(-n);
    }
  }

  lemma NegativeParses(n: nat)
    requires n > 0
    ensures Parse("-" + Digits(n)) == Some(-(n as int))
  {
    DigitsParse(n);
    assert ("-" + Digits(n))[1..] == Digits(n);
  }

  lemma NoSign(s: string)
    requires s != "" && forall c :: c in s ==> IsDigit(c)
    ensures s[0] != '-'
  {
    assert s[0] in s;
  }

  /** No leading zeros. */
  lemma NoLeadingZeros(n: Int64)
    ensures n > 0 ==> Decimal(n)[0] != '0'
    ensures n < 0 && n != MIN_INT64 ==> Decimal(n)[0] == '-' && Decimal(n)[1] != '0'
  {
  }
}
