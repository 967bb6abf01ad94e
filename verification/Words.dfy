/** Machine words, byte strings and the two result types every other module uses. */
module Words {

  datatype Option<+T> = None | Some(value: T)

  datatype Result<+T, +E> = Ok(value: T) | Err(error: E)

  const TWO_32: int := 0x1_0000_0000
  const TWO_63: int := 0x8000_0000_0000_0000
  const TWO_64: int := 0x1_0000_0000_0000_0000

  type byte = x: int | 0 <= x < 256
  type uint64 = x: int | 0 <= x < 0x1_0000_0000_0000_0000
  type Bytes = seq<byte>

  /** Go's unsigned 64-bit wrap-around; the Euclidean remainder is right for underflow too. */
  function Wrap64(x: int): uint64 {
    x % TWO_64
  }

  /** Go's signed 64-bit wrap-around. */
  function WrapSigned64(x: int): (r: int)
    ensures -TWO_63 <= r < TWO_63
    ensures -TWO_63 <= x < TWO_63 ==> r == x
    ensures (r - x) % TWO_64 == 0
  {
    (x + TWO_63) % TWO_64 - TWO_63
  }

  function Pow256(k: nat): (r: nat)
    ensures r >= 1
  {
    if k == 0 then 1 else 256 * Pow256(k - 1)
  }

  /** The k low-order bytes of n, most significant first. */
  function ToBigEndian(n: nat, k: nat): (s: Bytes)
    ensures |s| == k
  {
    if k == 0 then [] else ToBigEndian(n / 256, k - 1) + [n % 256]
  }

  function FromBigEndian(s: Bytes): (n: nat)
    ensures n < Pow256(|s|)
  {
    if s == [] then 0 else 256 * FromBigEndian(s[..|s| - 1]) + s[|s| - 1]
  }

  /** Writing k bytes keeps exactly the value modulo 256^k. */
  lemma {:induction false} BigEndianRoundTrip(n: nat, k: nat)
    ensures FromBigEndian(ToBigEndian(n, k)) == n % Pow256(k)
  {
    if k > 0 {
      var s := ToBigEndian(n, k);
      assert s[..|s| - 1] == ToBigEndian(n / 256, k - 1);
      BigEndianRoundTrip(n / 256, k - 1);
      DigitSplit(n, Pow256(k - 1));
    }
  }

  lemma DigitSplit(n: nat, m: nat)
    requires m >= 1
    ensures 256 * ((n / 256) % m) + n % 256 == n % (256 * m)
  {
    var q, d := n / 256, n % 256;
    var a, b := q / m, q % m;
    assert n == 256 * q + d && q == m * a + b;
    assert 256 * (m * a) == (256 * m) * a;
    assert n == (256 * m) * a + (256 * b + d);
    assert 256 * b + d < 256 * m;
    EuclideanUnique(n, 256 * m, a, 256 * b + d);
  }

  lemma EuclideanUnique(n: nat, m: nat, q: nat, r: nat)
    requires m >= 1 && n == m * q + r && r < m
    ensures n % m == r
  {
    Spread(m, n / m, q);
    Spread(m, q, n / m);
  }

  lemma Spread(m: nat, x: int, y: int)
    ensures x < y ==> m * x + m <= m * y
  {
    if x < y {
      var k := y - x - 1;
      assert m * k >= 0;
      assert m * (x + 1 + k) == m * x + m + m * k;
    }
  }

  lemma {:induction false} FromBigEndianInverse(s: Bytes)
    ensures ToBigEndian(FromBigEndian(s), |s|) == s
  {
    if s != [] {
      var t := s[..|s| - 1];
      FromBigEndianInverse(t);
      assert s == t + [s[|s| - 1]];
    }
  }

  /** The widths the codecs use. */
  lemma Widths()
    ensures Pow256(1) == 256 && Pow256(2) == 0x1_0000
    ensures Pow256(4) == TWO_32 && Pow256(8) == TWO_64
  {
    assert Pow256(1) == 256 * Pow256(0);
    assert Pow256(3) == 256 * Pow256(2);
    assert Pow256(4) == 256 * Pow256(3);
    assert Pow256(5) == 256 * Pow256(4);
    assert Pow256(6) == 256 * Pow256(5);
    assert Pow256(7) == 256 * Pow256(6);
    assert Pow256(8) == 256 * Pow256(7);
  }

  /** A value that fits in k bytes survives the trip through them. */
  lemma BigEndianExact(n: nat, k: nat)
    requires n < Pow256(k)
    ensures FromBigEndian(ToBigEndian(n, k)) == n
  {
    BigEndianRoundTrip(n, k);
    EuclideanUnique(n, Pow256(k), 0, n);
  }

  /** Most significant byte first. */
  lemma BigEndianOrder(n: nat)
    requires n < 0x1_0000
    ensures ToBigEndian(n, 2) == [n / 256, n % 256]
    ensures ToBigEndian(0x0102_0304_0506_0708, 8) == [1, 2, 3, 4, 5, 6, 7, 8]
  {
    assert ToBigEndian(n / 256, 1) == ToBigEndian(n / 256 / 256, 0) + [n / 256 % 256];
    assert ToBigEndian(0x01, 1) == ToBigEndian(0, 0) + [1];
    assert ToBigEndian(0x0102, 2) == ToBigEndian(0x01, 1) + [2];
    assert ToBigEndian(0x0102_03, 3) == ToBigEndian(0x0102, 2) + [3];
    assert ToBigEndian(0x0102_0304, 4) == ToBigEndian(0x0102_03, 3) + [4];
    assert ToBigEndian(0x0102_0304_05, 5) == ToBigEndian(0x0102_0304, 4) + [5];
    assert ToBigEndian(0x0102_0304_0506, 6) == ToBigEndian(0x0102_0304_05, 5) + [6];
    assert ToBigEndian(0x0102_0304_0506_07, 7) == ToBigEndian(0x0102_0304_0506, 6) + [7];
  }
}
