/** The macaroon identifier of an L402 and its binary codec. */
module Identifiers {
  import opened Words

  type Bytes32 = b: Bytes | |b| == 32 witness seq(32, _ => 0)
  type uint16 = x: int | 0 <= x < 0x1_0000

  datatype Identifier = Identifier(version: uint16, paymentHash: Bytes32, tokenID: Bytes32)

  /** A bytes.Reader. */
  class Reader {
    const data: Bytes
    var pos: nat

    ghost predicate Valid()
      reads this
    {
      pos <= |data|
    }

    constructor (data: Bytes)
      ensures Valid() && this.data == data && pos == 0
    {
      this.data := data;
      pos := 0;
    }

    /** Read: as many of the n bytes as are left; EOF only when none is. */
    method Read(n: nat) returns (got: Bytes, eof: bool)
      requires Valid() && n > 0
      modifies this
      ensures Valid()
      ensures eof <==> old(pos) == |data|
      ensures got == Available(data[old(pos)..], n)
      ensures pos == old(pos) + |got|
    {
      eof := pos == |data|;
      var end := if pos + n <= |data| then pos + n else |data|;
      got := data[pos..end];
      pos := end;
    }
  }

  /** The first n bytes, or all there are. */
  function Available(b: Bytes, n: nat): Bytes {
    if n <= |b| then b[..n] else b
  }

  /** A fixed-size array filled from a shorter slice keeps zeros at its end. */
  function Pad32(b: Bytes): Bytes32
    requires |b| <= 32
  {
    b + seq(32 - |b|, _ => 0)
  }

  function Encoded(id: Identifier): Option<Bytes> {
    if id.version == 0 then Some(ToBigEndian(id.version, 2) + id.paymentHash + id.tokenID) else None
  }

  function Decoded(b: Bytes): Option<Identifier> {
    if |b| < 2 || FromBigEndian(b[..2]) != 0 then None
    else
      var hash := Available(b[2..], 32);
      var rest := b[2 + |hash|..];
      if hash == [] || rest == [] then None
      else Some(Identifier(0, Pad32(hash), Pad32(Available(rest, 32))))
  }

  /** EncodeIdentifier: an unknown version is refused after its number has been written. */
  method EncodeIdentifier(id: Identifier) returns (w: Bytes, ok: bool)
    ensures ok <==> Encoded(id).Some?
    ensures ok ==> w == Encoded(id).value
    ensures !ok ==> w == ToBigEndian(id.version, 2)
  {
    w := ToBigEndian(id.version, 2);
    if id.version != 0 {
      return w, false;
    }
    w := w + id.paymentHash;
    w := w + id.tokenID;
    ok := true;
  }

  /** DecodeIdentifier: binary.Read needs both version bytes, the two raw reads take what is there. */
  method DecodeIdentifier(b: Bytes) returns (r: Option<Identifier>)
    ensures r == Decoded(b)
  {
    var reader := new Reader(b);
    var version, eof := reader.Read(2);
    if |version| < 2 || FromBigEndian(version) != 0 {
      return None;
    }
    assert b[0..] == b;
    var hash;
    hash, eof := reader.Read(32);
    if eof {
      return None;
    }
    var tokenID;
    tokenID, eof := reader.Read(32);
    if eof {
      return None;
    }
    return Some(Identifier(0, Pad32(hash), Pad32(tokenID)));
  }

  /** Exactly the version-0 inputs of at least 35 bytes are accepted. */
  lemma AcceptedIdentifiers(b: Bytes)
    ensures Decoded(b).Some? <==> |b| >= 35 && b[0] == 0 && b[1] == 0
  {
    if |b| >= 2 {
      var v := b[..2];
      assert v[..1] == [b[0]] && v[1] == b[1] && [b[0]][..0] == [];
      assert FromBigEndian([b[0]]) == 256 * FromBigEndian([]) + b[0];
      assert FromBigEndian(v) == 256 * FromBigEndian([b[0]]) + b[1];
    }
  }

  lemma IdentifierRoundTrip(id: Identifier)
    requires id.version == 0
    ensures Decoded(Encoded(id).value) == Some(id)
  {
    var b := Encoded(id).value;
    Widths();
    BigEndianExact(0, 2);
    assert b[..2] == ToBigEndian(0, 2);
    assert b[2..][..32] == id.paymentHash && b[34..] == id.tokenID;
    assert Pad32(id.paymentHash) == id.paymentHash && Pad32(id.tokenID) == id.tokenID;
  }

  /** Where the fields lie: two version bytes, 32 bytes of payment hash, and the token ID, which a short input
      leaves padded with zeros. */
  lemma IdentifierLayout(b: Bytes, i: nat)
    requires Decoded(b).Some? && i < 32
    ensures |b| >= 35 && Decoded(b).value.version == 0
    ensures Decoded(b).value.paymentHash[i] == b[2 + i]
    ensures Decoded(b).value.tokenID[i] == if 34 + i < |b| then b[34 + i] else 0
  {
    AcceptedIdentifiers(b);
  }

  lemma EncodedLayout(id: Identifier)
    requires id.version == 0
    ensures var b := Encoded(id).value;
            |b| == 66 && b[..2] == [0, 0] && b[2..34] == id.paymentHash && b[34..] == id.tokenID
  {
    BigEndianOrder(0);
  }
}
