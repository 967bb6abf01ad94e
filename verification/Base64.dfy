/** Base 64 (section 4 of RFC 4648) with padding, over any proper alphabet, as encoding/base64 has it. */
module Base64 {
  import opened Words

  datatype Alphabet = Alphabet(symbol: int -> char, value: char -> Option<int>)

  /** Sixty-four symbols that can be read back, none of them a padding, colon or line-break character. */
  ghost predicate Proper(al: Alphabet) {
    && (forall n | 0 <= n < 64 :: al.value(al.symbol(n)) == Some(n))
    && (forall c | al.value(c).Some? :: 0 <= al.value(c).value < 64 && c !in "=:\n\r")
  }

  function StdSymbol(n: int): char {
    if 0 <= n < 26 then 'A' + n as char
    else if 26 <= n < 52 then 'a' + (n - 26) as char
    else if 52 <= n < 62 then '0' + (n - 52) as char
    else if n == 62 then '+' else '/'
  }

  function StdValue(c: char): Option<int> {
    if 'A' <= c <= 'Z' then Some(c as int - 'A' as int)
    else if 'a' <= c <= 'z' then Some(c as int - 'a' as int + 26)
    else if '0' <= c <= '9' then Some(c as int - '0' as int + 52)
    else if c == '+' then Some(62)
    else if c == '/' then Some(63)
    else None
  }

  const STD: Alphabet := Alphabet(StdSymbol, StdValue)

  lemma StdProper()
    ensures Proper(STD)
  {
    forall c: char | STD.value(c).Some? ensures c !in "=:\n\r" {
      assert StdValue(c).Some?;
    }
  }

  type sextet = x: int | 0 <= x < 64

  /** The six-bit groups of a byte string; a last group of one or two bytes gives two or three. */
  function Sextets(b: Bytes): (v: seq<sextet>)
    ensures |v| % 4 != 1
  {
    if b == [] then []
    else if |b| == 1 then [b[0] / 4, b[0] % 4 * 16]
    else if |b| == 2 then [b[0] / 4, b[0] % 4 * 16 + b[1] / 16, b[1] % 16 * 4]
    else [b[0] / 4, b[0] % 4 * 16 + b[1] / 16, b[1] % 16 * 4 + b[2] / 64, b[2] % 64] + Sextets(b[3..])
  }

  function First(v0: int, v1: int): byte
    requires 0 <= v0 < 64 && 0 <= v1 < 64
  {
    v0 * 4 + v1 / 16
  }

  function Second(v1: int, v2: int): byte
    requires 0 <= v1 < 64 && 0 <= v2 < 64
  {
    v1 % 16 * 16 + v2 / 4
  }

  function Third(v2: int, v3: int): byte
    requires 0 <= v2 < 64 && 0 <= v3 < 64
  {
    v2 % 4 * 64 + v3
  }

  /** The bytes that groups of sextets spell; bits left over at the end are dropped. */
  function FromSextets(v: seq<sextet>): Bytes {
    if |v| <= 1 then []
    else if |v| == 2 then [First(v[0], v[1])]
    else if |v| == 3 then [First(v[0], v[1]), Second(v[1], v[2])]
    else [First(v[0], v[1]), Second(v[1], v[2]), Third(v[2], v[3])] + FromSextets(v[4..])
  }

  /** Symbols for sextets, the last group padded to four characters. */
  function Spell(al: Alphabet, v: seq<sextet>): string {
    if |v| <= 1 then ""
    else if |v| == 2 then [al.symbol(v[0]), al.symbol(v[1]), '=', '=']
    else if |v| == 3 then [al.symbol(v[0]), al.symbol(v[1]), al.symbol(v[2]), '=']
    else [al.symbol(v[0]), al.symbol(v[1]), al.symbol(v[2]), al.symbol(v[3])] + Spell(al, v[4..])
  }

  function Value(al: Alphabet, c: char): Option<sextet> {
    match al.value(c)
    case None => None
    case Some(n) => if 0 <= n < 64 then Some(n) else None
  }

  function ReadSextets(al: Alphabet, s: string): Option<seq<sextet>> {
    if s == "" then Some([])
    else if |s| < 4 || Value(al, s[0]).None? || Value(al, s[1]).None? then None
    else
      var v0, v1 := Value(al, s[0]).value, Value(al, s[1]).value;
      if s[2] == '=' then if s[3] == '=' && |s| == 4 then Some([v0, v1]) else None
      else if Value(al, s[2]).None? then None
      else
        var v2 := Value(al, s[2]).value;
        if s[3] == '=' then if |s| == 4 then Some([v0, v1, v2]) else None
        else if Value(al, s[3]).None? || ReadSextets(al, s[4..]).None? then None
        else Some([v0, v1, v2, Value(al, s[3]).value] + ReadSextets(al, s[4..]).value)
  }

  function Encode(al: Alphabet, b: Bytes): string {
    Spell(al, Sextets(b))
  }

  function StripNewlines(s: string): string {
    if s == "" then "" else (if s[0] == '\n' || s[0] == '\r' then "" else [s[0]]) + StripNewlines(s[1..])
  }

  /** DecodeString ignores line breaks. */
  function Decode(al: Alphabet, s: string): Option<Bytes> {
    match ReadSextets(al, StripNewlines(s))
    case None => None
    case Some(v) => Some(FromSextets(v))
  }

  lemma {:induction false} NothingToStrip(s: string)
    requires '\n' !in s && '\r' !in s
    ensures StripNewlines(s) == s
  {
    if s != "" {
      NothingToStrip(s[1..]);
    }
  }

  lemma SixBits(b0: byte, b1: byte, b2: byte)
    ensures b0 / 4 * 4 + (b0 % 4 * 16 + b1 / 16) / 16 == b0
    ensures (b0 % 4 * 16 + b1 / 16) % 16 * 16 + (b1 % 16 * 4 + b2 / 64) / 4 == b1
    ensures (b1 % 16 * 4 + b2 / 64) % 4 * 64 + b2 % 64 == b2
  {
  }

  lemma {:induction false} SextetsRoundTrip(b: Bytes)
    ensures FromSextets(Sextets(b)) == b
  {
    if |b| >= 3 {
      SixBits(b[0], b[1], b[2]);
      SextetsRoundTrip(b[3..]);
      assert Sextets(b)[4..] == Sextets(b[3..]);
      assert b == [b[0], b[1], b[2]] + b[3..];
    } else if |b| == 2 {
      SixBits(b[0], b[1], 0);
      assert b == [b[0], b[1]];
    } else if |b| == 1 {
      SixBits(b[0], 0, 0);
      assert b == [b[0]];
    }
  }

  lemma SymbolReads(al: Alphabet, n: sextet)
    requires Proper(al)
    ensures Value(al, al.symbol(n)) == Some(n) && al.symbol(n) != '='
  {
    assert al.value(al.symbol(n)) == Some(n);
    assert al.symbol(n) !in "=:\n\r";
  }

  lemma ReadGroup(al: Alphabet, v0: sextet, v1: sextet, v2: sextet, v3: sextet, rest: string)
    requires Proper(al) && ReadSextets(al, rest).Some?
    ensures ReadSextets(al, [al.symbol(v0), al.symbol(v1), al.symbol(v2), al.symbol(v3)] + rest)
         == Some([v0, v1, v2, v3] + ReadSextets(al, rest).value)
  {
    SymbolReads(al, v0);
    SymbolReads(al, v1);
    SymbolReads(al, v2);
    SymbolReads(al, v3);
    assert ([al.symbol(v0), al.symbol(v1), al.symbol(v2), al.symbol(v3)] + rest)[4..] == rest;
  }

  lemma ReadPadded(al: Alphabet, v0: sextet, v1: sextet, v2: sextet)
    requires Proper(al)
    ensures ReadSextets(al, [al.symbol(v0), al.symbol(v1), '=', '=']) == Some([v0, v1])
    ensures ReadSextets(al, [al.symbol(v0), al.symbol(v1), al.symbol(v2), '=']) == Some([v0, v1, v2])
  {
    SymbolReads(al, v0);
    SymbolReads(al, v1);
    SymbolReads(al, v2);
  }

  lemma {:induction false} SpellRoundTrip(al: Alphabet, v: seq<sextet>)
    requires Proper(al) && |v| % 4 != 1
    ensures ReadSextets(al, Spell(al, v)) == Some(v)
  {
    if |v| >= 4 {
      SpellRoundTrip(al, v[4..]);
      ReadGroup(al, v[0], v[1], v[2], v[3], Spell(al, v[4..]));
      assert v == [v[0], v[1], v[2], v[3]] + v[4..];
    } else if |v| == 3 {
      ReadPadded(al, v[0], v[1], v[2]);
      assert v == [v[0], v[1], v[2]];
    } else if |v| == 2 {
      ReadPadded(al, v[0], v[1], 0);
      assert v == [v[0], v[1]];
    }
  }

  lemma {:induction false} PlainText(al: Alphabet, v: seq<sextet>)
    requires Proper(al)
    ensures ':' !in Spell(al, v) && '\n' !in Spell(al, v) && '\r' !in Spell(al, v)
  {
    forall i | 0 <= i < |v| ensures al.symbol(v[i]) !in ":\n\r" {
      assert al.value(al.symbol(v[i])).Some?;
    }
    if |v| >= 4 {
      PlainText(al, v[4..]);
    }
  }

  lemma RoundTrip(al: Alphabet, b: Bytes)
    requires Proper(al)
    ensures Decode(al, Encode(al, b)) == Some(b)
    ensures ':' !in Encode(al, b) && '\n' !in Encode(al, b)
  {
    SextetsRoundTrip(b);
    SpellRoundTrip(al, Sextets(b));
    PlainText(al, Sextets(b));
    NothingToStrip(Encode(al, b));
  }

  /** Table 1 of RFC 4648: A to Z, a to z, 0 to 9, + and /. */
  lemma StdTable(n: nat)
    requires n < 64
    ensures STD.symbol(0) == 'A' && STD.symbol(25) == 'Z' && STD.symbol(26) == 'a' && STD.symbol(51) == 'z'
    ensures STD.symbol(52) == '0' && STD.symbol(61) == '9' && STD.symbol(62) == '+' && STD.symbol(63) == '/'
    ensures n < 61 && n != 25 && n != 51 ==> STD.symbol(n + 1) as int == STD.symbol(n) as int + 1
  {
  }

  /** Three bytes make four symbols, high bits first. */
  lemma EncodeGroup(a: byte, b: byte, c: byte, rest: Bytes)
    ensures Encode(STD, [a, b, c] + rest)
         == [STD.symbol(a / 4), STD.symbol(a % 4 * 16 + b / 16), STD.symbol(b % 16 * 4 + c / 64), STD.symbol(c % 64)]
            + Encode(STD, rest)
  {
    var all := [a, b, c] + rest;
    assert all[3..] == rest;
    var head: seq<sextet> := [a / 4, a % 4 * 16 + b / 16, b % 16 * 4 + c / 64, c % 64];
    assert Sextets(all) == head + Sextets(rest);
    assert (head + Sextets(rest))[4..] == Sextets(rest);
  }

  /** Section 10 of RFC 4648: "", "f", "fo" and "foo". */
  lemma Vectors()
    ensures Encode(STD, []) == "" && Encode(STD, [102]) == "Zg==" && Encode(STD, [102, 111]) == "Zm8="
    ensures Encode(STD, [102, 111, 111]) == "Zm9v"
  {
    assert Sextets([102]) == [25, 32];
    assert Sextets([102, 111]) == [25, 38, 60];
    ThreeBytes();
  }

  lemma ThreeBytes()
    ensures Encode(STD, [102, 111, 111]) == "Zm9v"
  {
    var v: seq<sextet> := [25, 38, 61, 47];
    assert Sextets([102, 111, 111]) == v + Sextets([]) == v;
    assert v[4..] == [];
    assert Spell(STD, v) == [STD.symbol(25), STD.symbol(38), STD.symbol(61), STD.symbol(47)] + Spell(STD, []);
  }

  lemma {:induction false} StripConcat(a: string, b: string)
    ensures StripNewlines(a + b) == StripNewlines(a) + StripNewlines(b)
  {
    if a == "" {
      assert a + b == b;
    } else {
      assert (a + b)[1..] == a[1..] + b;
      StripConcat(a[1..], b);
    }
  }

  lemma BreakStripped(a: string, c: char, b: string)
    requires c == '\n' || c == '\r'
    ensures StripNewlines(a + [c] + b) == StripNewlines(a + b)
  {
    StripConcat(a, b);
    StripConcat(a, [c] + b);
    assert a + [c] + b == a + ([c] + b);
    assert ([c] + b)[1..] == b;
  }

  /** Line breaks anywhere make no difference. */
  lemma LineBreaksIgnored(al: Alphabet, a: string, c: char, b: string)
    requires c == '\n' || c == '\r'
    ensures Decode(al, a + [c] + b) == Decode(al, a + b)
  {
    BreakStripped(a, c, b);
  }

  /** Padding is required: without line breaks only whole groups of four characters decode. */
  lemma {:induction false} WholeGroups(al: Alphabet, s: string)
    requires ReadSextets(al, s).Some?
    ensures |s| % 4 == 0
  {
    if |s| > 4 {
      WholeGroups(al, s[4..]);
    }
  }
}
