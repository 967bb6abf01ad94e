/** Base 16 (section 8 of RFC 4648), as Go's encoding/hex reads and writes it. */
module Hex {
  import opened Words

  function Digit(n: int): (c: char)
    requires 0 <= n < 16
    ensures IsLowerDigit(c) && Value(c) == Some(n)
  {
    if n < 10 then '0' + n as char else 'a' + (n - 10) as char
  }

  predicate IsLowerDigit(c: char) {
    '0' <= c <= '9' || 'a' <= c <= 'f'
  }

  function Value(c: char): (r: Option<int>)
    ensures r.Some? ==> 0 <= r.value < 16
  {
    if '0' <= c <= '9' then Some(c as int - '0' as int)
    else if 'a' <= c <= 'f' then Some(c as int - 'a' as int + 10)
    else if 'A' <= c <= 'F' then Some(c as int - 'A' as int + 10)
    else None
  }

  function Encode(b: Bytes): (s: string)
    ensures |s| == 2 * |b|
    ensures forall i | 0 <= i < |s| :: IsLowerDigit(s[i])
  {
    if b == [] then "" else [Digit(b[0] / 16), Digit(b[0] % 16)] + Encode(b[1..])
  }

  function Decode(s: string): (r: Option<Bytes>)
    ensures r.Some? ==> |s| == 2 * |r.value|
  {
    if s == "" then Some([])
    else if |s| < 2 || Value(s[0]).None? || Value(s[1]).None? then None
    else match Decode(s[2..])
      case None => None
      case Some(rest) => Some([16 * Value(s[0]).value + Value(s[1]).value] + rest)
  }

  lemma {:induction false} RoundTrip(b: Bytes)
    ensures Decode(Encode(b)) == Some(b)
  {
    if b != [] {
      var s := Encode(b);
      assert s[2..] == Encode(b[1..]);
      RoundTrip(b[1..]);
      assert [b[0]] + b[1..] == b;
    }
  }

  lemma DigitIs(n: nat)
    requires n < 16
    ensures Digit(n) == "0123456789abcdef"[n]
  {
  }

  lemma {:induction false} DigitsAt(b: Bytes, i: nat)
    requires i < |b|
    ensures Encode(b)[2 * i] == Digit(b[i] / 16) && Encode(b)[2 * i + 1] == Digit(b[i] % 16)
  {
    if i > 0 {
      DigitsAt(b[1..], i - 1);
    }
  }

  /** Each byte is two lower-case digits, the high one first. */
  lemma EncodeAt(b: Bytes, i: nat)
    requires i < |b|
    ensures Encode(b)[2 * i] == "0123456789abcdef"[b[i] / 16]
    ensures Encode(b)[2 * i + 1] == "0123456789abcdef"[b[i] % 16]
  {
    DigitsAt(b, i);
    DigitIs(b[i] / 16);
    DigitIs(b[i] % 16);
  }

  predicate IsHexDigit(c: char) {
    '0' <= c <= '9' || 'a' <= c <= 'f' || 'A' <= c <= 'F'
  }

  /** Exactly the strings of an even number of hexadecimal digits decode. */
  lemma {:induction false} DecodesIff(s: string)
    ensures Decode(s).Some? <==> |s| % 2 == 0 && forall i | 0 <= i < |s| :: IsHexDigit(s[i])
  {
    if |s| >= 2 {
      DecodesIff(s[2..]);
      assert forall i | 2 <= i < |s| :: s[i] == s[2..][i - 2];
    }
  }

  /** Upper-case digits mean the same as lower-case ones. */
  lemma UpperCase(c: char)
    requires 'A' <= c <= 'F'
    ensures Value(c) == Some(c as int - 'A' as int + 10) == Value((c as int - 'A' as int + 'a' as int) as char)
  {
  }
}
