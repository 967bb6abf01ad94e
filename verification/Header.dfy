/** How a credential travels: base 64 and base 16 header fields, and the preimage caveat. */
module Header {
  import opened Words
  import opened Caveats
  import opened Identifiers
  import opened Mint
  import Base64
  import Hex

  // ---------------------------------------------------------------- the authorization regex

  predicate LowerHex64(s: string) {
    |s| == 64 && forall i | 0 <= i < 64 :: Hex.IsLowerDigit(s[i])
  }

  /** The lazy group: the first j from here on where ":" and 64 hex digits follow, before any line break. */
  function ScanColon(s: string, start: nat, j: nat): Option<(string, string)>
    requires start <= j <= |s|
    decreases |s| - j
  {
    if j + 65 > |s| then None
    else if s[j] == ':' && LowerHex64(s[j + 1..j + 65]) then Some((s[start..j], s[j + 1..j + 65]))
    else if s[j] == '\n' then None
    else ScanColon(s, start, j + 1)
  }

  /** The leftmost match of "L402 (.*?):([a-f0-9]{64})". */
  function FindAuth(s: string, i: nat): Option<(string, string)>
    requires i <= |s|
    decreases |s| - i
  {
    if i + 5 > |s| then None
    else if s[i..i + 5] == "L402 " && ScanColon(s, i + 5, i + 5).Some? then ScanColon(s, i + 5, i + 5)
    else FindAuth(s, i + 1)
  }

  lemma {:induction false} ScanSkips(s: string, start: nat, j: nat, end: nat)
    requires start <= j <= end && end + 65 <= |s|
    requires forall k | j <= k < end :: s[k] != ':' && s[k] != '\n'
    requires s[end] == ':' && LowerHex64(s[end + 1..end + 65])
    ensures ScanColon(s, start, j) == Some((s[start..end], s[end + 1..end + 65]))
    decreases end - j
  {
    if j < end {
      ScanSkips(s, start, j + 1, end);
    }
  }

  lemma {:induction false} FindSkips(s: string, i: nat, start: nat)
    requires i <= start && start + 5 <= |s| && s[start..start + 5] == "L402 "
    requires ScanColon(s, start + 5, start + 5).Some?
    requires forall k | i <= k < start :: s[k] != 'L'
    ensures FindAuth(s, i) == ScanColon(s, start + 5, start + 5)
    decreases start - i
  {
    if i < start {
      assert s[i..i + 5][0] == s[i];
      FindSkips(s, i + 1, start);
    }
  }

  /** The pattern is found after anything without an L, whatever follows it. */
  lemma AuthMatches(before: string, mac: string, pre: string, after: string)
    requires 'L' !in before && ':' !in mac && '\n' !in mac && LowerHex64(pre)
    ensures FindAuth(before + "L402 " + mac + ":" + pre + after, 0) == Some((mac, pre))
  {
    var s := before + "L402 " + mac + ":" + pre + after;
    var start := |before|;
    var end := start + 5 + |mac|;
    assert s[start..start + 5] == "L402 " && s[start + 5..end] == mac && s[end] == ':';
    assert s[end + 1..end + 65] == pre;
    assert forall k | start + 5 <= k < end :: s[k] == mac[k - start - 5];
    ScanSkips(s, start + 5, start + 5, end);
    FindSkips(s, 0, start);
  }

  lemma {:induction false} ScanSound(s: string, start: nat, j: nat)
    requires start <= j <= |s| && ScanColon(s, start, j).Some?
    ensures var (mac, pre) := ScanColon(s, start, j).value;
            && start + |mac| + 65 <= |s| && s[start..start + |mac| + 65] == mac + ":" + pre && LowerHex64(pre)
    decreases |s| - j
  {
    if s[j] == ':' && LowerHex64(s[j + 1..j + 65]) {
      assert s[start..j + 65] == s[start..j] + ":" + s[j + 1..j + 65];
    } else {
      ScanSound(s, start, j + 1);
    }
  }

  /** And only where it is: what is found stands in the field, marker, macaroon, colon and 64 lower-case digits. */
  lemma {:induction false} FindAuthSound(s: string, i: nat) returns (at: nat)
    requires i <= |s| && FindAuth(s, i).Some?
    ensures var (mac, pre) := FindAuth(s, i).value;
            && at + 5 + |mac| + 65 <= |s| && LowerHex64(pre)
            && s[at..at + 5] == "L402 " && s[at + 5..at + 5 + |mac| + 65] == mac + ":" + pre
    decreases |s| - i
  {
    if s[i..i + 5] == "L402 " && ScanColon(s, i + 5, i + 5).Some? {
      at := i;
      ScanSound(s, i + 5, i + 5);
    } else {
      at := FindAuthSound(s, i + 1);
    }
  }

  // ---------------------------------------------------------------- header fields

  const AUTHORIZATION: string := "Authorization"
  const MACAROON_MD: string := "Grpc-Metadata-Macaroon"
  const MACAROON: string := "Macaroon"

  /** The macaroon library's binary format. */
  datatype Wire = Wire(marshal: Macaroon -> Bytes, unmarshal: Bytes -> Option<Macaroon>)

  function Field(fields: map<string, string>, name: string): string {
    if name in fields then fields[name] else ""
  }

  class HttpHeader {
    var fields: map<string, string>

    constructor ()
      ensures fields == map[]
    {
      fields := map[];
    }

    function Get(name: string): string
      reads this
    {
      Field(fields, name)
    }

    /** SetHeader. */
    method SetHeader(wire: Wire, mac: Macaroon, preimage: Bytes32)
      modifies this
      ensures fields == old(fields)[AUTHORIZATION := AuthValue(wire, mac, preimage)]
    {
      var macBytes := wire.marshal(mac);
      fields := fields[AUTHORIZATION := "L402 " + Base64.Encode(Base64.STD, macBytes) + ":" + Hex.Encode(preimage)];
    }

    /** FromHeader: the Authorization field first, then the two macaroon-only fields. */
    method FromHeader(wire: Wire) returns (r: Option<(Macaroon, Bytes32)>)
      ensures r == Presented(wire, fields)
    {
      if Get(AUTHORIZATION) != "" {
        var matches := FindAuth(Get(AUTHORIZATION), 0);
        if matches.None? {
          return None;
        }
        var macBytes := Base64.Decode(Base64.STD, matches.value.0);
        if macBytes.None? {
          return None;
        }
        var mac := wire.unmarshal(macBytes.value);
        var preimage := PreimageFromStr(matches.value.1);
        if mac.None? || preimage.None? {
          return None;
        }
        return Some((mac.value, preimage.value));
      }
      var authHeader := if Get(MACAROON_MD) != "" then Get(MACAROON_MD) else Get(MACAROON);
      if authHeader == "" {
        return None;
      }
      var macBytes := Hex.Decode(authHeader);
      if macBytes.None? {
        return None;
      }
      var mac := wire.unmarshal(macBytes.value);
      if mac.None? {
        return None;
      }
      var preimageHex := HasCaveat(mac.value, "preimage");
      if preimageHex.None? {
        return None;
      }
      var preimage := PreimageFromStr(preimageHex.value);
      if preimage.None? {
        return None;
      }
      return Some((mac.value, preimage.value));
    }
  }

  /** lntypes.MakePreimageFromStr. */
  function PreimageFromStr(s: string): Option<Bytes32> {
    if |s| != 64 || Hex.Decode(s).None? then None else Some(Hex.Decode(s).value)
  }

  /** The value of the last caveat of a condition. */
  function LastOf(caveats: seq<Caveat>, condition: string): Option<string> {
    var chain := Chain(caveats, condition);
    if chain == [] then None else Some(chain[|chain| - 1].value)
  }

  /** The value of the last readable caveat of a condition. */
  function LastValue(raws: seq<string>, condition: string): Option<string> {
    LastOf(Readable(raws), condition)
  }

  lemma LastOfGrows(caveats: seq<Caveat>, c: Caveat, condition: string)
    ensures LastOf(caveats + [c], condition)
         == if c.condition == condition then Some(c.value) else LastOf(caveats, condition)
  {
    ChainIgnores(caveats, c, condition);
    assert Chain(caveats, condition) + [] == Chain(caveats, condition);
  }

  lemma ReadableGrows(raws: seq<string>, i: nat)
    requires i < |raws|
    ensures Readable(raws[..i + 1])
         == match DecodeCaveat(raws[i]) { case None => Readable(raws[..i]) case Some(c) => Readable(raws[..i]) + [c] }
  {
    assert raws[..i + 1][..i] == raws[..i];
    var sofar := Readable(raws[..i]);
    assert sofar + [] == sofar;
  }

  method HasCaveat(m: Macaroon, condition: string) returns (value: Option<string>)
    ensures value == LastValue(m.caveats, condition)
  {
    value := None;
    for i := 0 to |m.caveats|
      invariant value == LastValue(m.caveats[..i], condition)
    {
      ReadableGrows(m.caveats, i);
      var caveat := DecodeCaveat(m.caveats[i]);
      if caveat.None? {
        continue;
      }
      LastOfGrows(Readable(m.caveats[..i]), caveat.value, condition);
      if caveat.value.condition == condition {
        value := Some(caveat.value.value);
      }
    }
    assert m.caveats[..|m.caveats|] == m.caveats;
  }

  function AuthValue(wire: Wire, mac: Macaroon, preimage: Bytes32): string {
    "L402 " + Base64.Encode(Base64.STD, wire.marshal(mac)) + ":" + Hex.Encode(preimage)
  }

  function Credential(wire: Wire, authorization: string, macaroonOnly: string): Option<(Macaroon, Bytes32)> {
    if authorization != "" then
      match FindAuth(authorization, 0)
      case None => None
      case Some((mac64, preHex)) => Combine(
        match Base64.Decode(Base64.STD, mac64) { case None => None case Some(b) => wire.unmarshal(b) },
        PreimageFromStr(preHex))
    else if macaroonOnly == "" then None
    else
      match Hex.Decode(macaroonOnly)
      case None => None
      case Some(b) =>
        match wire.unmarshal(b)
        case None => None
        case Some(mac) =>
          match LastValue(mac.caveats, "preimage")
          case None => None
          case Some(preHex) => Combine(Some(mac), PreimageFromStr(preHex))
  }

  /** What a header presents. */
  function Presented(wire: Wire, fields: map<string, string>): Option<(Macaroon, Bytes32)> {
    Credential(wire, Field(fields, AUTHORIZATION),
               if Field(fields, MACAROON_MD) != "" then Field(fields, MACAROON_MD) else Field(fields, MACAROON))
  }

  function Combine(mac: Option<Macaroon>, preimage: Option<Bytes32>): Option<(Macaroon, Bytes32)> {
    if mac.None? || preimage.None? then None else Some((mac.value, preimage.value))
  }

  // ---------------------------------------------------------------- round trips

  lemma PreimageRoundTrip(preimage: Bytes32)
    ensures PreimageFromStr(Hex.Encode(preimage)) == Some(preimage) && LowerHex64(Hex.Encode(preimage))
  {
    Hex.RoundTrip(preimage);
  }

  lemma AuthSpelled(mac: string, pre: string)
    ensures "" + "L402 " + mac + ":" + pre + "" == "L402 " + mac + ":" + pre
  {
  }

  /** FromHeader returns what SetHeader was given, whatever else the header holds. */
  lemma HeaderRoundTrip(wire: Wire, mac: Macaroon, preimage: Bytes32, macaroonOnly: string)
    requires wire.unmarshal(wire.marshal(mac)) == Some(mac)
    ensures Credential(wire, AuthValue(wire, mac, preimage), macaroonOnly) == Some((mac, preimage))
  {
    var mac64 := Base64.Encode(Base64.STD, wire.marshal(mac));
    Base64.StdProper();
    Base64.RoundTrip(Base64.STD, wire.marshal(mac));
    PreimageRoundTrip(preimage);
    AuthMatches("", mac64, Hex.Encode(preimage), "");
    AuthSpelled(mac64, Hex.Encode(preimage));
  }

  /** PaidMacaroon. */
  function PaidMacaroon(baseMac: Macaroon, preimage: Bytes32): Macaroon {
    AppendAll(baseMac, [PreimageCaveat(preimage)])
  }

  function PreimageCaveat(preimage: Bytes32): Caveat {
    Caveat("preimage", Hex.Encode(preimage))
  }

  lemma PaidShape(m: Macaroon, preimage: Bytes32)
    ensures PaidMacaroon(m, preimage) == Append(m, EncodeCaveat(PreimageCaveat(preimage)))
    ensures Readable(PaidMacaroon(m, preimage).caveats) == Readable(m.caveats) + [PreimageCaveat(preimage)]
  {
    var c := PreimageCaveat(preimage);
    assert [c][..0] == [];
    assert AppendAll(m, []) == m;
    ReadableConcat(m.caveats, [EncodeCaveat(c)]);
    ReadableSingle(c);
  }

  lemma PreimageIrrelevant(target: string)
    ensures "preimage" != COND_SERVICES && "preimage" != target + TIMEOUT_SUFFIX
  {
    var t := target + TIMEOUT_SUFFIX;
    assert t[|t| - 1] == 'l' && "preimage"[7] == 'e';
  }

  lemma ChainIgnores(caveats: seq<Caveat>, c: Caveat, condition: string)
    ensures Chain(caveats + [c], condition) == Chain(caveats, condition) + if c.condition == condition then [c] else []
  {
    assert (caveats + [c])[..|caveats|] == caveats;
  }

  /** A gRPC client that sends only the paid macaroon presents the same credential as a REST client that
      sends macaroon and preimage apart: both are read back, and one verifies exactly when the other does. */
  lemma CredentialEquivalence(wire: Wire, sha: Bytes -> Bytes, rows: seq<Row>, mac: Macaroon, preimage: Bytes32,
                              target: string, nowSec: int)
    requires wire.unmarshal(wire.marshal(mac)) == Some(mac)
    requires wire.unmarshal(wire.marshal(PaidMacaroon(mac, preimage))) == Some(PaidMacaroon(mac, preimage))
    requires wire.marshal(PaidMacaroon(mac, preimage)) != []
    ensures Credential(wire, AuthValue(wire, mac, preimage), "") == Some((mac, preimage))
    ensures Credential(wire, "", Hex.Encode(wire.marshal(PaidMacaroon(mac, preimage))))
         == Some((PaidMacaroon(mac, preimage), preimage))
    ensures Verifies(sha, rows, PaidMacaroon(mac, preimage), preimage, target, nowSec)
       <==> Verifies(sha, rows, mac, preimage, target, nowSec)
  {
    HeaderRoundTrip(wire, mac, preimage, "");
    PaidRead(wire, mac, preimage);
    PaidVerifies(sha, rows, mac, preimage, target, nowSec);
  }

  lemma PaidSigned(mac: Macaroon, preimage: Bytes32, secret: Bytes)
    ensures PaidMacaroon(mac, preimage).sig == SigOver(secret, mac.id, PaidMacaroon(mac, preimage).caveats)
       <==> mac.sig == SigOver(secret, mac.id, mac.caveats)
  {
    var paid := PaidMacaroon(mac, preimage);
    PaidShape(mac, preimage);
    assert paid.caveats[..|paid.caveats| - 1] == mac.caveats;
  }

  lemma PaidRestricted(mac: Macaroon, preimage: Bytes32, target: string, nowSec: int)
    ensures Verified(Readable(PaidMacaroon(mac, preimage).caveats), TokenSatisfiers(target, nowSec))
       <==> Verified(Readable(mac.caveats), TokenSatisfiers(target, nowSec))
  {
    var cs, c := Readable(mac.caveats), PreimageCaveat(preimage);
    PaidShape(mac, preimage);
    PreimageIrrelevant(target);
    ChainIgnores(cs, c, COND_SERVICES);
    ChainIgnores(cs, c, target + TIMEOUT_SUFFIX);
    assert Chain(cs, COND_SERVICES) + [] == Chain(cs, COND_SERVICES);
    assert Chain(cs, target + TIMEOUT_SUFFIX) + [] == Chain(cs, target + TIMEOUT_SUFFIX);
    TokenVerifiedIff(cs, target, nowSec);
    TokenVerifiedIff(cs + [c], target, nowSec);
  }

  lemma PaidVerifies(sha: Bytes -> Bytes, rows: seq<Row>, mac: Macaroon, preimage: Bytes32, target: string, nowSec: int)
    ensures Verifies(sha, rows, PaidMacaroon(mac, preimage), preimage, target, nowSec)
       <==> Verifies(sha, rows, mac, preimage, target, nowSec)
  {
    assert PaidMacaroon(mac, preimage).id == mac.id by { PaidShape(mac, preimage); }
    PaidRestricted(mac, preimage, target, nowSec);
    if SecretOf(rows, sha(mac.id)).Some? {
      PaidSigned(mac, preimage, SecretOf(rows, sha(mac.id)).value);
    }
  }

  // ---------------------------------------------------------------- the three fields

  /** The Authorization field decides, whatever the other two hold. */
  lemma AuthorizationField(wire: Wire, fields: map<string, string>, mac: Macaroon, preimage: Bytes32)
    requires wire.unmarshal(wire.marshal(mac)) == Some(mac)
    requires "Authorization" in fields
    requires var mac64 := Base64.Encode(Base64.STD, wire.marshal(mac));
             fields["Authorization"] == "L402 " + mac64 + ":" + Hex.Encode(preimage)
    ensures Presented(wire, fields) == Some((mac, preimage))
  {
    HeaderRoundTrip(wire, mac, preimage, if Field(fields, MACAROON_MD) != "" then Field(fields, MACAROON_MD)
                                         else Field(fields, MACAROON));
  }

  /** Without it the Grpc-Metadata-Macaroon field does, and without that the Macaroon field: each carries the
      paid macaroon in base 16. */
  lemma MacaroonFields(wire: Wire, fields: map<string, string>, mac: Macaroon, preimage: Bytes32)
    requires wire.marshal(PaidMacaroon(mac, preimage)) != []
    requires wire.unmarshal(wire.marshal(PaidMacaroon(mac, preimage))) == Some(PaidMacaroon(mac, preimage))
    requires "Authorization" !in fields || fields["Authorization"] == ""
    requires var sent := Hex.Encode(wire.marshal(PaidMacaroon(mac, preimage)));
             || ("Grpc-Metadata-Macaroon" in fields && fields["Grpc-Metadata-Macaroon"] == sent)
             || (&& ("Grpc-Metadata-Macaroon" !in fields || fields["Grpc-Metadata-Macaroon"] == "")
                 && "Macaroon" in fields && fields["Macaroon"] == sent)
    ensures Presented(wire, fields) == Some((PaidMacaroon(mac, preimage), preimage))
  {
    PaidRead(wire, mac, preimage);
  }

  lemma NoFields(wire: Wire, fields: map<string, string>)
    requires "Authorization" !in fields && "Grpc-Metadata-Macaroon" !in fields && "Macaroon" !in fields
    ensures Presented(wire, fields) == None
  {
  }

  lemma PaidRead(wire: Wire, mac: Macaroon, preimage: Bytes32)
    requires wire.unmarshal(wire.marshal(PaidMacaroon(mac, preimage))) == Some(PaidMacaroon(mac, preimage))
    requires wire.marshal(PaidMacaroon(mac, preimage)) != []
    ensures Hex.Encode(wire.marshal(PaidMacaroon(mac, preimage))) != ""
    ensures Credential(wire, "", Hex.Encode(wire.marshal(PaidMacaroon(mac, preimage))))
         == Some((PaidMacaroon(mac, preimage), preimage))
  {
    var paid := PaidMacaroon(mac, preimage);
    Hex.RoundTrip(wire.marshal(paid));
    PreimageRoundTrip(preimage);
    PaidPreimage(mac, preimage);
  }

  lemma PaidPreimage(mac: Macaroon, preimage: Bytes32)
    ensures LastValue(PaidMacaroon(mac, preimage).caveats, "preimage") == Some(Hex.Encode(preimage))
  {
    PaidShape(mac, preimage);
    LastOfGrows(Readable(mac.caveats), PreimageCaveat(preimage), "preimage");
  }

  /** The proof of payment, as it is written into the macaroon. */
  lemma PaidCaveat(mac: Macaroon, preimage: Bytes32)
    ensures PaidMacaroon(mac, preimage).id == mac.id
    ensures PaidMacaroon(mac, preimage).caveats == mac.caveats + ["preimage=" + Hex.Encode(preimage)]
  {
    PaidShape(mac, preimage);
    assert "preimage" + "=" == "preimage=";
  }

  /** Exactly the strings of 64 hexadecimal digits are preimages. */
  lemma PreimageIff(s: string)
    ensures PreimageFromStr(s).Some? <==> |s| == 64 && forall i | 0 <= i < 64 :: Hex.IsHexDigit(s[i])
  {
    Hex.DecodesIff(s);
  }
}
