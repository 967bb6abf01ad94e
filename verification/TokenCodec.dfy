/** The token a client keeps and its on-disk form. The macaroon stays in its marshaled form; whether the
    macaroon library can unmarshal it is a parameter. */
module TokenCodec {
  import opened Words
  import opened Identifiers

  datatype Token = Token(paymentHash: Bytes32, preimage: Bytes32, amountPaid: uint64, routingFeePaid: uint64,
                         timeCreated: int, baseMac: Bytes)

  /** The all-zero preimage marks a token whose payment may still be in transit. */
  predicate IsZero(preimage: Bytes32) {
    forall i | 0 <= i < 32 :: preimage[i] == 0
  }

  predicate IsPending(t: Token) {
    IsZero(t.preimage)
  }

  function FromSigned64(u: uint64): int {
    if u >= TWO_63 then u - TWO_64 else u
  }

  predicate Representable(t: Token) {
    |t.baseMac| < TWO_32 && -TWO_63 <= t.timeCreated < TWO_63
  }

  /** The fixed-size fields after the macaroon. */
  function Fields(t: Token): (s: Bytes)
    ensures |s| == 88
  {
    t.paymentHash + t.preimage + ToBigEndian(t.amountPaid, 8) + ToBigEndian(t.routingFeePaid, 8)
    + ToBigEndian(Wrap64(t.timeCreated), 8)
  }

  /** The length goes through a uint32 conversion, the time through an int64. */
  function Serialized(t: Token): Bytes {
    ToBigEndian(|t.baseMac| % TWO_32, 4) + t.baseMac + Fields(t)
  }

  method SerializeToken(t: Token) returns (b: Bytes)
    ensures b == Serialized(t)
  {
    b := ToBigEndian(|t.baseMac| % TWO_32, 4);
    b := b + t.baseMac;
    ghost var head := b;
    b := b + t.paymentHash;
    b := b + t.preimage;
    b := b + ToBigEndian(t.amountPaid, 8);
    b := b + ToBigEndian(t.routingFeePaid, 8);
    b := b + ToBigEndian(Wrap64(t.timeCreated), 8);
    assert b == head + Fields(t);
  }

  function U64(s: Bytes): uint64
    requires |s| == 8
  {
    Widths();
    FromBigEndian(s)
  }

  function ReadFields(mac: Bytes, s: Bytes): Token
    requires |s| >= 88
  {
    Token(s[..32], s[32..64], U64(s[64..72]), U64(s[72..80]), FromSigned64(U64(s[80..88])), mac)
  }

  /** What deserializeToken makes of a file; bytes after the last field are ignored. */
  function Deserialized(valid: Bytes -> bool, s: Bytes): Option<Token> {
    if |s| < 4 then None
    else
      var n := FromBigEndian(s[..4]);
      if |s| < 4 + n + 88 || !valid(s[4..4 + n]) then None
      else Some(ReadFields(s[4..4 + n], s[4 + n..]))
  }

  /** binary.Read: all n bytes or an error. */
  method ReadFull(r: Reader, n: nat) returns (got: Bytes, ok: bool)
    requires r.Valid()
    modifies r
    ensures r.Valid()
    ensures ok <==> old(r.pos) + n <= |r.data|
    ensures ok ==> got == r.data[old(r.pos)..old(r.pos) + n] && r.pos == old(r.pos) + n
  {
    if n == 0 {
      return [], true;
    }
    var eof;
    got, eof := r.Read(n);
    ok := |got| == n;
  }

  /** What follows the payment hash. */
  method ReadPayment(r: Reader, mac: Bytes, hash: Bytes32) returns (t: Option<Token>)
    requires r.Valid()
    modifies r
    ensures t.Some? <==> old(r.pos) + 56 <= |r.data|
    ensures t.Some? ==>
              var s := r.data[old(r.pos)..];
              t.value == Token(hash, s[..32], U64(s[32..40]), U64(s[40..48]), FromSigned64(U64(s[48..56])), mac)
  {
    ghost var s := r.data[r.pos..];
    var preimage, ok := ReadFull(r, 32);
    if !ok {
      return None;
    }
    assert preimage == s[..32];
    var amount, fee, nanos;
    amount, ok := ReadFull(r, 8);
    if !ok {
      return None;
    }
    assert amount == s[32..40];
    fee, ok := ReadFull(r, 8);
    if !ok {
      return None;
    }
    assert fee == s[40..48];
    nanos, ok := ReadFull(r, 8);
    if !ok {
      return None;
    }
    assert nanos == s[48..56];
    return Some(Token(hash, preimage, U64(amount), U64(fee), FromSigned64(U64(nanos)), mac));
  }

  method DeserializeToken(valid: Bytes -> bool, value: Bytes) returns (t: Option<Token>)
    ensures t == Deserialized(valid, value)
  {
    var r := new Reader(value);
    var head, ok := ReadFull(r, 4);
    if !ok {
      return None;
    }
    var n := FromBigEndian(head);
    var mac;
    mac, ok := ReadFull(r, n);
    if !ok {
      return None;
    }
    var hash;
    hash, ok := ReadFull(r, 32);
    if !ok || !valid(mac) {
      return None;
    }
    t := ReadPayment(r, mac, hash);
    if t.Some? {
      FieldsShifted(value, 4 + n);
    }
  }

  lemma FieldsShifted(value: Bytes, k: nat)
    requires k + 88 <= |value|
    ensures var rest, s := value[k..], value[k + 32..];
            && rest[..32] == value[k..k + 32] && rest[32..64] == s[..32]
            && rest[64..72] == s[32..40] && rest[72..80] == s[40..48] && rest[80..88] == s[48..56]
  {
  }

  lemma U64RoundTrip(u: uint64)
    ensures U64(ToBigEndian(u, 8)) == u
  {
    Widths();
    BigEndianExact(u, 8);
  }

  lemma FieldsRoundTrip(t: Token, rest: Bytes)
    ensures ReadFields(t.baseMac, Fields(t) + rest) == t.(timeCreated := FromSigned64(Wrap64(t.timeCreated)))
  {
    var s := Fields(t) + rest;
    assert s[..32] == t.paymentHash && s[32..64] == t.preimage;
    assert s[64..72] == ToBigEndian(t.amountPaid, 8) && s[72..80] == ToBigEndian(t.routingFeePaid, 8);
    assert s[80..88] == ToBigEndian(Wrap64(t.timeCreated), 8);
    U64RoundTrip(t.amountPaid);
    U64RoundTrip(t.routingFeePaid);
    U64RoundTrip(Wrap64(t.timeCreated));
  }

  lemma LengthPrefix(t: Token)
    ensures FromBigEndian(ToBigEndian(|t.baseMac| % TWO_32, 4)) == |t.baseMac| % TWO_32
  {
    Widths();
    BigEndianExact(|t.baseMac| % TWO_32, 4);
  }

  lemma SignedTrip(x: int)
    ensures FromSigned64(Wrap64(x)) == x <==> -TWO_63 <= x < TWO_63
  {
  }

  lemma SerializedParts(t: Token)
    ensures var s, n := Serialized(t), |t.baseMac|;
            && |s| == 4 + n + 88 && s[..4] == ToBigEndian(n % TWO_32, 4)
            && s[4..4 + n] == t.baseMac && s[4 + n..] == Fields(t) + []
  {
  }

  lemma ShortMacaroon(valid: Bytes -> bool, t: Token)
    requires valid(t.baseMac) && |t.baseMac| < TWO_32
    ensures Deserialized(valid, Serialized(t)) == Some(t.(timeCreated := FromSigned64(Wrap64(t.timeCreated))))
  {
    LengthPrefix(t);
    SerializedParts(t);
    FieldsRoundTrip(t, []);
  }

  /** A longer macaroon comes back cut off, if at all. */
  lemma LongMacaroon(valid: Bytes -> bool, t: Token)
    requires |t.baseMac| >= TWO_32
    ensures Deserialized(valid, Serialized(t)) != Some(t)
  {
    LengthPrefix(t);
    SerializedParts(t);
    var r := Deserialized(valid, Serialized(t));
    assert r.Some? ==> |r.value.baseMac| == |t.baseMac| % TWO_32;
  }

  /** A stored token reads back as itself exactly when its macaroon length fits in 32 bits and its creation
      time in 64. */
  lemma TokenRoundTrip(valid: Bytes -> bool, t: Token)
    requires valid(t.baseMac)
    ensures Deserialized(valid, Serialized(t)) == Some(t) <==> Representable(t)
  {
    if |t.baseMac| < TWO_32 {
      ShortMacaroon(valid, t);
      SignedTrip(t.timeCreated);
    } else {
      LongMacaroon(valid, t);
    }
  }

  /** A file cut short by a crash is never mistaken for a token. */
  lemma TornFileRejected(valid: Bytes -> bool, t: Token, k: nat)
    requires |t.baseMac| < TWO_32 && k < |Serialized(t)|
    ensures Deserialized(valid, Serialized(t)[..k]).None?
  {
    var s := Serialized(t);
    if k >= 4 {
      LengthPrefix(t);
      assert s[..k][..4] == ToBigEndian(|t.baseMac| % TWO_32, 4);
    }
  }

  /** Four bytes as a number, most significant first. */
  function Number(a: int, b: int, c: int, d: int): int {
    ((a * 256 + b) * 256 + c) * 256 + d
  }

  lemma FourBytes(s: Bytes)
    requires |s| == 4
    ensures FromBigEndian(s) == Number(s[0], s[1], s[2], s[3])
  {
    assert s[..3][..2] == s[..2] && s[..2][..1] == s[..1] && s[..1][..0] == [];
    assert FromBigEndian(s[..1]) == s[0];
    assert FromBigEndian(s[..2]) == 256 * FromBigEndian(s[..1]) + s[1];
    assert FromBigEndian(s[..3]) == 256 * FromBigEndian(s[..2]) + s[2];
  }

  /** Where the fields of a token file lie. */
  lemma TokenLayout(valid: Bytes -> bool, s: Bytes)
    requires Deserialized(valid, s).Some?
    ensures var t := Deserialized(valid, s).value;
            var n := |t.baseMac|;
            && |s| >= n + 92 && n == Number(s[0], s[1], s[2], s[3])
            && valid(t.baseMac) && t.baseMac == s[4..4 + n]
            && t.paymentHash == s[4 + n..36 + n] && t.preimage == s[36 + n..68 + n]
            && t.amountPaid == U64(s[68 + n..76 + n]) && t.routingFeePaid == U64(s[76 + n..84 + n])
            && t.timeCreated == FromSigned64(U64(s[84 + n..92 + n]))
  {
    FourBytes(s[..4]);
    FieldsAt(s, 4 + FromBigEndian(s[..4]));
  }

  lemma FieldsAt(s: Bytes, k: nat)
    requires k + 88 <= |s|
    ensures var r := s[k..];
            && r[..32] == s[k..k + 32] && r[32..64] == s[k + 32..k + 64] && r[64..72] == s[k + 64..k + 72]
            && r[72..80] == s[k + 72..k + 80] && r[80..88] == s[k + 80..k + 88]
  {
  }

  /** One preimage alone marks a pending token: 32 zero bytes. */
  lemma PendingIff(t: Token)
    ensures IsPending(t) <==> t.preimage == seq(32, _ => 0)
  {
    if IsPending(t) {
      assert forall i | 0 <= i < 32 :: t.preimage[i] == 0;
    }
  }
}
