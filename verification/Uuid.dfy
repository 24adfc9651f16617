/** uuidToString and stringToUUID. */
module Uuid {
  import opened Core
  import Forwarding

  type Byte = x: int | 0 <= x < 256

  /** pgtype.UUID: sixteen bytes, or NULL. */
  type Bytes16 = b: seq<Byte> | |b| == 16 witness seq(16, _ => 0)

  datatype ParseError = BadLength(length: nat) | BadHex

  datatype Result = Ok(bytes: Bytes16) | Err(error: ParseError)

  function HexDigit(d: int): char
    requires 0 <= d < 16
  {
    if d < 10 then '0' + d as char else 'a' + (d - 10) as char
  }

  /** Both cases are accepted. */
  function HexValue(c: char): Option<int> {
    if '0' <= c <= '9' then Some((c - '0') as int)
    else if 'a' <= c <= 'f' then Some((c - 'a') as int + 10)
    else if 'A' <= c <= 'F' then Some((c - 'A') as int + 10)
    else None
  }

  lemma HexDigits(c: char)
    ensures HexValue(c).Some? ==> 0 <= HexValue(c).value < 16
    ensures forall d :: 0 <= d < 16 ==> HexValue(HexDigit(d)) == Some(d) && HexDigit(d) != '-'
  {
  }

  /** %x of a byte slice. */
  function Hex(b: seq<Byte>): (s: string)
    ensures |s| == 2 * |b|
  {
    if b == [] then "" else [HexDigit(b[0] / 16), HexDigit(b[0] % 16)] + Hex(b[1..])
  }

  /** hex.DecodeString. */
  function Unhex(s: string): Option<seq<Byte>> {
    if s == "" then Some([])
    else if |s| == 1 then None
    else
      var hi, lo := HexValue(s[0]), HexValue(s[1]);
      HexDigits(s[0]); HexDigits(s[1]);
      if hi.None? || lo.None? then None
      else
        match Unhex(s[2..])
        case None => None
        case Some(rest) => Some([16 * hi.value + lo.value] + rest)
  }

  lemma {:induction false} UnhexHex(b: seq<Byte>)
    ensures Unhex(Hex(b)) == Some(b)
    ensures forall c :: c in Hex(b) ==> c != '-' && c < '\U{80}'
  {
    if b != [] {
      HexDigits('0');
      UnhexHex(b[1..]);
      assert Hex(b)[0] == HexDigit(b[0] / 16) && Hex(b)[1] == HexDigit(b[0] % 16);
      assert Hex(b)[2..] == Hex(b[1..]);
      assert 16 * (b[0] / 16) + b[0] % 16 == b[0];
      assert [b[0]] + b[1..] == b;
    }
  }

  /** The 8-4-4-4-12 form. */
  function Grouped(h: string): string
    requires |h| == 32
  {
    h[..8] + "-" + h[8..12] + "-" + h[12..16] + "-" + h[16..20] + "-" + h[20..]
  }

  /** uuidToString; NULL prints as nothing. */
  function Print(u: Option<Bytes16>): string {
    if u.None? then "" else Grouped(Hex(u.value))
  }

  /** The characters that are not hyphens, in order. */
  function Strip(s: string): string {
    if s == "" then "" else (if s[0] == '-' then "" else [s[0]]) + Strip(s[1..])
  }

  lemma {:induction false} StripAppend(a: string, b: string)
    ensures Strip(a + b) == Strip(a) + Strip(b)
  {
    if a == "" {
      assert a + b == b;
    } else {
      assert (a + b)[1..] == a[1..] + b;
      StripAppend(a[1..], b);
    }
  }

  lemma {:induction false} StripPlain(s: string)
    requires '-' !in s
    ensures Strip(s) == s
  {
    if s != "" {
      assert s[0] in s;
      StripPlain(s[1..]);
    }
  }

  /** What stringToUUID computes. */
  function Parse(s: string): Result {
    var clean := Strip(s);
    var n := Forwarding.Utf8Length(clean);
    if n != 32 then Err(BadLength(n))
    else
      match Unhex(clean)
      case None => Err(BadHex)
      case Some(b) => UnhexLength(clean); AsciiLength(clean); Ok(b)
  }

  lemma {:induction false} UnhexLength(s: string)
    ensures Unhex(s).Some? ==> |s| == 2 * |Unhex(s).value| && forall c :: c in s ==> c < '\U{80}'
  {
    if |s| >= 2 {
      UnhexLength(s[2..]);
      assert s == [s[0], s[1]] + s[2..];
    }
  }

  lemma {:induction false} AsciiLength(s: string)
    ensures (forall c :: c in s ==> c < '\U{80}') ==> Forwarding.Utf8Length(s) == |s|
  {
    if s != "" {
      AsciiLength(s[1..]);
      assert s[0] in s && forall c :: c in s[1..] ==> c in s;
    }
  }

  /** The loop that builds `clean`, then the checks. */
  method StringToUUID(s: string) returns (r: Result)
    ensures r == Parse(s)
  {
    var clean := "";
    for i := 0 to |s|
      invariant clean == Strip(s[..i])
    {
      assert s[..i + 1] == s[..i] + [s[i]];
      StripAppend(s[..i], [s[i]]);
      if s[i] != '-' {
        clean := clean + [s[i]];
      }
    }
    assert s[..|s|] == s;
    var length := Forwarding.Utf8Length(clean);
    if length != 32 {
      return Err(BadLength(length));
    }
    var b := Unhex(clean);
    if b.None? {
      return Err(BadHex);
    }
    UnhexLength(clean);
    AsciiLength(clean);
    r := Ok(b.value);
  }

  lemma {:induction false} StripHyphen(a: string, b: string)
    ensures Strip(a + "-" + b) == Strip(a) + Strip(b)
  {
    var t := a + "-" + b;
    if a == "" {
      assert t[0] == '-' && t[1..] == b;
    } else {
      assert t[0] == a[0] && t[1..] == a[1..] + "-" + b;
      StripHyphen(a[1..], b);
    }
  }

  lemma StripGrouped(h: string)
    requires |h| == 32 && '-' !in h
    ensures Strip(Grouped(h)) == h
  {
    var a, b, c, d, e := h[..8], h[8..12], h[12..16], h[16..20], h[20..];
    StripPlain(a);
    StripPlain(b);
    StripPlain(c);
    StripPlain(d);
    StripPlain(e);
    StripHyphen(a, b);
    StripHyphen(a + "-" + b, c);
    StripHyphen(a + "-" + b + "-" + c, d);
    StripHyphen(a + "-" + b + "-" + c + "-" + d, e);
    FiveParts(h);
  }

  lemma FiveParts(h: string)
    requires |h| == 32
    ensures h[..8] + h[8..12] + h[12..16] + h[16..20] + h[20..] == h
  {
  }

  /** Parsing undoes printing, so printing is injective on valid UUIDs. */
  lemma ParseUndoesPrint(u: Bytes16)
    ensures Parse(Print(Some(u))) == Ok(u)
  {
    UnhexHex(u);
    StripGrouped(Hex(u));
    AsciiLength(Hex(u));
  }

  lemma PrintIsInjective(u: Option<Bytes16>, v: Option<Bytes16>)
    ensures Print(u) == Print(v) <==> u == v
  {
    if u.Some? {
      ParseUndoesPrint(u.value);
    }
    if v.Some? {
      ParseUndoesPrint(v.value);
    }
    assert Strip("") == "";
  }

  function LowerChar(c: char): char {
    if 'A' <= c <= 'Z' then c - 'A' + 'a' else c
  }

  function Lower(s: string): (l: string)
    ensures |l| == |s|
  {
    if s == "" then "" else [LowerChar(s[0])] + Lower(s[1..])
  }

  predicate HexOnly(s: string) {
    forall i :: 0 <= i < |s| ==> HexValue(s[i]).Some?
  }

  lemma HexOnlySplits(s: string)
    requires |s| >= 2
    ensures HexOnly(s) <==> HexValue(s[0]).Some? && HexValue(s[1]).Some? && HexOnly(s[2..])
  {
    if HexValue(s[0]).Some? && HexValue(s[1]).Some? && HexOnly(s[2..]) {
      forall i | 2 <= i < |s|
        ensures HexValue(s[i]).Some?
      {
        assert s[i] == s[2..][i - 2];
      }
    }
  }

  lemma {:induction false} UnhexAccepts(s: string)
    ensures Unhex(s).Some? <==> |s| % 2 == 0 && HexOnly(s)
  {
    if |s| >= 2 {
      UnhexAccepts(s[2..]);
      HexOnlySplits(s);
    }
  }

  lemma {:induction false} HexUnhex(s: string)
    requires Unhex(s).Some?
    ensures Hex(Unhex(s).value) == Lower(s)
  {
    if s != "" {
      HexUnhex(s[2..]);
      HexPair(s[0], s[1]);
      LowerPair(s);
      var b := Unhex(s).value;
      assert b[1..] == Unhex(s[2..]).value;
    }
  }

  /** Two hex digits, decoded and printed again. */
  lemma HexPair(hi: char, lo: char)
    requires HexValue(hi).Some? && HexValue(lo).Some?
    ensures var b := 16 * HexValue(hi).value + HexValue(lo).value;
      0 <= b < 256 && [HexDigit(b / 16), HexDigit(b % 16)] == [LowerChar(hi), LowerChar(lo)]
  {
    HexDigits(hi);
    HexDigits(lo);
    LowerHex(hi);
    LowerHex(lo);
  }

  lemma LowerHex(c: char)
    requires HexValue(c).Some?
    ensures 0 <= HexValue(c).value < 16 && HexDigit(HexValue(c).value) == LowerChar(c)
  {
  }

  lemma LowerPair(s: string)
    requires |s| >= 2
    ensures Lower(s) == [LowerChar(s[0]), LowerChar(s[1])] + Lower(s[2..])
  {
    assert s[1..][1..] == s[2..] && s[1..][0] == s[1];
    assert Lower(s) == [LowerChar(s[0])] + Lower(s[1..]);
  }

  /** A string is accepted exactly when it has 32 hex digits between its hyphens, and printing the result gives its
      canonical lower-case 8-4-4-4-12 form. */
  lemma PrintCanonicalizes(s: string)
    ensures Parse(s).Ok? <==> |Strip(s)| == 32 && HexOnly(Strip(s))
    ensures Parse(s).Ok? ==> Print(Some(Parse(s).bytes)) == Grouped(Lower(Strip(s)))
  {
    UnhexAccepts(Strip(s));
    if Unhex(Strip(s)).Some? {
      HexUnhex(Strip(s));
    }
    UnhexLength(Strip(s));
    AsciiLength(Strip(s));
  }

  /** The digits, in both cases. */
  lemma DigitsInOrder(d: int)
    requires 0 <= d < 16
    ensures HexDigit(d) == "0123456789abcdef"[d]
    ensures HexValue("0123456789abcdef"[d]) == HexValue("0123456789ABCDEF"[d]) == Some(d)
  {
  }

  lemma {:induction false} HexAt(b: seq<Byte>, i: nat)
    requires i < |b|
    ensures Hex(b)[2 * i] == HexDigit(b[i] / 16) && Hex(b)[2 * i + 1] == HexDigit(b[i] % 16)
  {
    if i > 0 {
      HexAt(b[1..], i - 1);
      assert Hex(b)[2 * i] == Hex(b[1..])[2 * (i - 1)] && Hex(b)[2 * i + 1] == Hex(b[1..])[2 * (i - 1) + 1];
    }
  }

  /** Where byte i is printed: after 4, 6, 8 and 10 bytes comes a hyphen. */
  function PlaceOf(i: nat): nat {
    2 * i + (if i >= 4 then 1 else 0) + (if i >= 6 then 1 else 0) + (if i >= 8 then 1 else 0)
    + (if i >= 10 then 1 else 0)
  }

  /** The printed form is 36 characters: hyphens at 8, 13, 18 and 23, and each byte as two lower-case digits in its
      place. */
  lemma PrintedForm(u: Bytes16, i: nat)
    requires i < 16
    ensures var s := Print(Some(u));
      && |s| == 36 && s[8] == '-' && s[13] == '-' && s[18] == '-' && s[23] == '-'
      && PlaceOf(i) + 1 < 36 && s[PlaceOf(i)] == "0123456789abcdef"[u[i] / 16]
      && s[PlaceOf(i) + 1] == "0123456789abcdef"[u[i] % 16]
    ensures Print(None) == ""
  {
    HexAt(u, i);
    DigitsInOrder(u[i] / 16);
    DigitsInOrder(u[i] % 16);
    PairAt(Hex(u), i);
  }

  lemma PairAt(h: string, i: nat)
    requires |h| == 32 && i < 16
    ensures var s := Grouped(h);
      && |s| == 36 && s[8] == '-' && s[13] == '-' && s[18] == '-' && s[23] == '-'
      && PlaceOf(i) + 1 < 36 && s[PlaceOf(i)] == h[2 * i] && s[PlaceOf(i) + 1] == h[2 * i + 1]
  {
    GroupedAt(h, 2 * i);
    GroupedAt(h, 2 * i + 1);
  }

  lemma GroupedAt(h: string, k: nat)
    requires |h| == 32 && k < 32
    ensures var s := Grouped(h);
      && |s| == 36 && s[8] == '-' && s[13] == '-' && s[18] == '-' && s[23] == '-'
      && var p := k + (if k >= 8 then 1 else 0) + (if k >= 12 then 1 else 0) + (if k >= 16 then 1 else 0)
                    + (if k >= 20 then 1 else 0);
         p < 36 && s[p] == h[k]
  {
  }

  /** Which of the two errors a string gets. */
  lemma ErrorsOf(s: string)
    ensures Parse(s) == Err(BadLength(Forwarding.Utf8Length(Strip(s)))) <==> Forwarding.Utf8Length(Strip(s)) != 32
    ensures Parse(s) == Err(BadHex) <==>
      Forwarding.Utf8Length(Strip(s)) == 32 && !(|Strip(s)| == 32 && HexOnly(Strip(s)))
  {
    PrintCanonicalizes(s);
    UnhexAccepts(Strip(s));
  }
}
