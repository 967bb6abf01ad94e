/** The string functions the caveat codecs rely on: strings.Split, strings.SplitN(s, sep, 2) and
    decimal integers as strconv reads and writes them. */
module Text {
  import opened Words

  /** strings.Split with a one-character separator. */
  function Split(s: string, sep: char): (parts: seq<string>)
    ensures |parts| >= 1
    ensures forall i | 0 <= i < |parts| :: sep !in parts[i]
  {
    if s == "" then [""]
    else
      var rest := Split(s[1..], sep);
      if s[0] == sep then [""] + rest else [[s[0]] + rest[0]] + rest[1..]
  }

  lemma {:induction false} SplitWhole(s: string, sep: char)
    requires sep !in s
    ensures Split(s, sep) == [s]
  {
    if s != "" {
      SplitWhole(s[1..], sep);
      assert [s[0]] + s[1..] == s;
    }
  }

  lemma {:induction false} SplitHead(a: string, sep: char, b: string)
    requires sep !in a
    ensures Split(a + [sep] + b, sep) == [a] + Split(b, sep)
  {
    var s := a + [sep] + b;
    if a == "" {
      assert s[1..] == b;
    } else {
      assert s[1..] == a[1..] + [sep] + b;
      SplitHead(a[1..], sep, b);
      assert [a[0]] + a[1..] == a;
    }
  }

  /** strings.SplitN(s, sep, 2), when it yields two parts. */
  function SplitFirst(s: string, sep: char): (r: Option<(string, string)>)
    ensures r.None? <==> sep !in s
    ensures r.Some? ==> s == r.value.0 + [sep] + r.value.1 && sep !in r.value.0
  {
    if s == "" then None
    else if s[0] == sep then
      assert s == "" + [sep] + s[1..];
      Some(("", s[1..]))
    else match SplitFirst(s[1..], sep)
      case None => None
      case Some((a, b)) =>
        assert s == [s[0]] + s[1..] == ([s[0]] + a) + [sep] + b;
        Some(([s[0]] + a, b))
  }

  lemma {:induction false} SplitFirstJoin(a: string, sep: char, b: string)
    requires sep !in a
    ensures SplitFirst(a + [sep] + b, sep) == Some((a, b))
  {
    var s := a + [sep] + b;
    if a == "" {
      assert s[1..] == b;
    } else {
      assert s[1..] == a[1..] + [sep] + b;
      SplitFirstJoin(a[1..], sep, b);
      assert [a[0]] + a[1..] == a;
    }
  }

  // ---------------------------------------------------------------- decimal integers

  predicate IsDigit(c: char) {
    '0' <= c <= '9'
  }

  function FormatNat(n: nat): (s: string)
    ensures |s| >= 1 && forall i | 0 <= i < |s| :: IsDigit(s[i])
  {
    var d := ['0' + (n % 10) as char];
    if n < 10 then d else FormatNat(n / 10) + d
  }

  function ParseDigits(s: string): (r: Option<nat>) {
    if s == "" || !IsDigit(s[|s| - 1]) then None
    else
      var d := s[|s| - 1] as int - '0' as int;
      if |s| == 1 then Some(d)
      else match ParseDigits(s[..|s| - 1])
        case None => None
        case Some(n) => Some(10 * n + d)
  }

  lemma {:induction false} DigitsRoundTrip(n: nat)
    ensures ParseDigits(FormatNat(n)) == Some(n)
  {
    if n >= 10 {
      var s := FormatNat(n);
      assert s[..|s| - 1] == FormatNat(n / 10);
      DigitsRoundTrip(n / 10);
    }
  }

  /** strconv.FormatInt(n, 10). */
  function FormatInt(n: int): string {
    if n < 0 then "-" + FormatNat(-n) else FormatNat(n)
  }

  /** strconv.ParseInt(s, 10, 64), and strconv.Atoi on a 64-bit machine. */
  function ParseInt64(s: string): (r: Option<int>)
    ensures r.Some? ==> -TWO_63 <= r.value < TWO_63
  {
    if s == "" then None
    else
      var signed := s[0] == '-' || s[0] == '+';
      match ParseDigits(if signed then s[1..] else s)
      case None => None
      case Some(n) =>
        var magnitude: int := n;
        var v := if s[0] == '-' then -magnitude else magnitude;
        if -TWO_63 <= v < TWO_63 then Some(v) else None
  }

  lemma UnsignedParse(s: string, n: nat)
    requires s != "" && IsDigit(s[0]) && ParseDigits(s) == Some(n) && n < TWO_63
    ensures ParseInt64(s) == Some(n)
  {
  }

  lemma NegativeParse(s: string, n: int)
    requires 0 <= n <= TWO_63 && ParseDigits(s) == Some(n)
    ensures ParseInt64("-" + s) == Some(-n)
  {
    assert ("-" + s)[1..] == s;
  }

  lemma IntRoundTrip(n: int)
    requires -TWO_63 <= n < TWO_63
    ensures ParseInt64(FormatInt(n)) == Some(n)
  {
    if n < 0 {
      DigitsRoundTrip(-n);
      NegativeParse(FormatNat(-n), -n);
    } else {
      DigitsRoundTrip(n);
      UnsignedParse(FormatNat(n), n);
    }
  }

  /** Decimal notation. */
  lemma IntVectors()
    ensures FormatInt(0) == "0" && FormatInt(1700) == "1700" && FormatInt(-42) == "-42"
    ensures ParseInt64("1700") == Some(1700) && ParseInt64("-42") == Some(-42) && ParseInt64("0") == Some(0)
  {
    assert FormatNat(17) == FormatNat(1) + "7";
    assert FormatNat(170) == FormatNat(17) + "0";
    assert FormatNat(1700) == FormatNat(170) + "0";
    assert FormatNat(42) == FormatNat(4) + "2";
    IntRoundTrip(1700);
    IntRoundTrip(-42);
    IntRoundTrip(0);
  }

  lemma {:induction false} DigitsOnly(s: string)
    ensures ParseDigits(s).Some? <==> s != "" && forall i | 0 <= i < |s| :: IsDigit(s[i])
  {
    if |s| > 1 {
      DigitsOnly(s[..|s| - 1]);
    }
  }

  /** Only an optional sign and at least one digit parse. */
  lemma ParsesOnlyDigits(s: string)
    requires ParseInt64(s).Some?
    ensures var t := if s[0] == '-' || s[0] == '+' then s[1..] else s;
            t != "" && forall i | 0 <= i < |t| :: IsDigit(t[i])
  {
    DigitsOnly(if s[0] == '-' || s[0] == '+' then s[1..] else s);
  }

  /** A string of digits above the largest int64 is out of range. */
  lemma IntRange(n: nat)
    requires n >= TWO_63
    ensures ParseInt64(FormatNat(n)) == None
  {
    DigitsRoundTrip(n);
    assert IsDigit(FormatNat(n)[0]);
  }
}
