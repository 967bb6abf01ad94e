/** Minting and verifying L402s. The macaroon signature is a free algebra, so that the only way to a valid
    signature is a minted token and appended caveats; SHA-256, randomness, the challenger and the service
    limiter are inputs. */
module Mint {
  import opened Words
  import opened Text
  import opened Caveats
  import opened Identifiers

  // ---------------------------------------------------------------- macaroons

  datatype Sig = Root(secret: Bytes, id: Bytes) | Step(prev: Sig, caveat: string)

  datatype Macaroon = Macaroon(id: Bytes, caveats: seq<string>, sig: Sig)

  function SigOver(secret: Bytes, id: Bytes, caveats: seq<string>): Sig {
    if caveats == [] then Root(secret, id)
    else Step(SigOver(secret, id, caveats[..|caveats| - 1]), caveats[|caveats| - 1])
  }

  function NewMacaroon(secret: Bytes, id: Bytes): Macaroon {
    Macaroon(id, [], Root(secret, id))
  }

  function Append(m: Macaroon, raw: string): Macaroon {
    Macaroon(m.id, m.caveats + [raw], Step(m.sig, raw))
  }

  function AppendAll(m: Macaroon, caveats: seq<Caveat>): Macaroon {
    if caveats == [] then m
    else Append(AppendAll(m, caveats[..|caveats| - 1]), EncodeCaveat(caveats[|caveats| - 1]))
  }

  /** AddFirstPartyCaveats. */
  method AddFirstPartyCaveats(m: Macaroon, caveats: seq<Caveat>) returns (r: Macaroon)
    ensures r == AppendAll(m, caveats)
    ensures r.id == m.id && r.caveats == m.caveats + RawAll(caveats)
  {
    r := m;
    for i := 0 to |caveats|
      invariant r == AppendAll(m, caveats[..i])
    {
      assert caveats[..i + 1][..i] == caveats[..i];
      r := Append(r, EncodeCaveat(caveats[i]));
    }
    assert caveats[..|caveats|] == caveats;
    AppendAllShape(m, caveats);
  }

  function RawAll(caveats: seq<Caveat>): seq<string> {
    if caveats == [] then [] else RawAll(caveats[..|caveats| - 1]) + [EncodeCaveat(caveats[|caveats| - 1])]
  }

  lemma {:induction false} AppendAllShape(m: Macaroon, caveats: seq<Caveat>)
    ensures AppendAll(m, caveats).id == m.id
    ensures AppendAll(m, caveats).caveats == m.caveats + RawAll(caveats)
    ensures forall secret :: m.sig == SigOver(secret, m.id, m.caveats) ==>
              AppendAll(m, caveats).sig == SigOver(secret, m.id, m.caveats + RawAll(caveats))
  {
    if caveats == [] {
      assert m.caveats + [] == m.caveats;
    } else {
      var n := |caveats| - 1;
      AppendAllShape(m, caveats[..n]);
      var raw := m.caveats + RawAll(caveats);
      assert raw == m.caveats + RawAll(caveats[..n]) + [EncodeCaveat(caveats[n])];
      assert raw[..|raw| - 1] == m.caveats + RawAll(caveats[..n]);
    }
  }

  function ReadableOne(raw: string): seq<Caveat> {
    match DecodeCaveat(raw)
    case None => []
    case Some(c) => [c]
  }

  /** VerifyL402 skips raw caveats it cannot decode. */
  function Readable(raws: seq<string>): seq<Caveat> {
    if raws == [] then [] else Readable(raws[..|raws| - 1]) + ReadableOne(raws[|raws| - 1])
  }

  lemma {:induction false} ReadableConcat(a: seq<string>, b: seq<string>)
    ensures Readable(a + b) == Readable(a) + Readable(b)
  {
    if b == [] {
      assert a + b == a;
    } else {
      var n := |b| - 1;
      assert (a + b)[..|a + b| - 1] == a + b[..n];
      ReadableConcat(a, b[..n]);
      assert Readable(a) + Readable(b[..n]) + ReadableOne(b[n]) == Readable(a) + (Readable(b[..n]) + ReadableOne(b[n]));
    }
  }

  // ---------------------------------------------------------------- the secret store

  datatype Row = Row(idHash: Bytes, paymentHash: Bytes32, secret: Bytes, settledAt: Option<int>)

  function SecretOf(rows: seq<Row>, idHash: Bytes): (r: Option<Bytes>)
    ensures r.Some? ==> exists i :: 0 <= i < |rows| && rows[i].idHash == idHash && rows[i].secret == r.value
    ensures r.None? <==> forall i | 0 <= i < |rows| :: rows[i].idHash != idHash
  {
    if rows == [] then None
    else if rows[0].idHash == idHash then Some(rows[0].secret)
    else
      assert forall i | 0 <= i < |rows| - 1 :: rows[1..][i] == rows[i + 1];
      SecretOf(rows[1..], idHash)
  }

  // ---------------------------------------------------------------- verification

  /** What VerifyL402 accepts. */
  ghost predicate Verifies(sha: Bytes -> Bytes, rows: seq<Row>, m: Macaroon, preimage: Bytes, target: string,
                           nowSec: int)
  {
    && Decoded(m.id).Some?
    && sha(preimage) == Decoded(m.id).value.paymentHash
    && SecretOf(rows, sha(m.id)).Some?
    && m.sig == SigOver(SecretOf(rows, sha(m.id)).value, m.id, m.caveats)
    && Verified(Readable(m.caveats), TokenSatisfiers(target, nowSec))
  }

  method VerifyL402(sha: Bytes -> Bytes, rows: seq<Row>, m: Macaroon, preimage: Bytes, target: string, nowSec: int)
    returns (ok: bool)
    ensures ok <==> Verifies(sha, rows, m, preimage, target, nowSec)
  {
    var id := DecodeIdentifier(m.id);
    if id.None? || sha(preimage) != id.value.paymentHash {
      return false;
    }
    var secret := SecretOf(rows, sha(m.id));
    if secret.None? || m.sig != SigOver(secret.value, m.id, m.caveats) {
      return false;
    }
    var caveats := [];
    for i := 0 to |m.caveats|
      invariant caveats == Readable(m.caveats[..i])
    {
      assert m.caveats[..i + 1][..i] == m.caveats[..i];
      var caveat := DecodeCaveat(m.caveats[i]);
      if caveat.None? {
        continue;
      }
      caveats := caveats + [caveat.value];
    }
    assert m.caveats[..|m.caveats|] == m.caveats;
    ok := VerifyCaveats(caveats, [ServicesSatisfier(target), TimeoutSatisfier(target, nowSec)]);
  }

  // ---------------------------------------------------------------- minting

  /** The first of the most expensive services, or nobody at price zero. */
  ghost predicate TopPrice(services: seq<Service>, recipient: string, price: int) {
    && price >= 0 && (forall i | 0 <= i < |services| :: services[i].price <= price)
    && (price == 0 ==> recipient == "")
    && (price > 0 ==> exists i :: && 0 <= i < |services|
                                  && services[i].price == price && services[i].recipientLud16 == recipient
                                  && forall j | 0 <= j < i :: services[j].price < price)
  }

  /** paymentDetailsForMaxPrice. */
  method PaymentDetailsForMaxPrice(services: seq<Service>) returns (recipient: string, price: int)
    ensures TopPrice(services, recipient, price)
  {
    recipient, price := "", 0;
    for n := 0 to |services|
      invariant price >= 0 && forall i | 0 <= i < n :: services[i].price <= price
      invariant price == 0 ==> recipient == ""
      invariant price > 0 ==> exists i :: && 0 <= i < n
                                          && services[i].price == price && services[i].recipientLud16 == recipient
                                          && forall j | 0 <= j < i :: services[j].price < price
    {
      if services[n].price > price {
        recipient, price := services[n].recipientLud16, services[n].price;
      }
    }
  }

  /** A token as it leaves the mint. */
  datatype Issue = Issue(mac: Macaroon, secret: Bytes, paymentHash: Bytes32, services: seq<Service>,
                         limits: seq<Caveat>)

  function ServicesCaveat(services: seq<Service>): Caveat
    requires EncodedServices(services).Ok?
  {
    Caveat(COND_SERVICES, EncodedServices(services).value)
  }

  /** The restrictions applied at once: none for a token without services. */
  function FirstCaveats(services: seq<Service>, limits: seq<Caveat>): seq<Caveat>
    requires services == [] || EncodedServices(services).Ok?
  {
    if services == [] then [] else [ServicesCaveat(services)] + limits
  }

  ghost predicate WellIssued(i: Issue) {
    && (i.services == [] || EncodedServices(i.services).Ok?)
    && Decoded(i.mac.id).Some? && Decoded(i.mac.id).value.paymentHash == i.paymentHash
    && i.mac == AppendAll(NewMacaroon(i.secret, i.mac.id), FirstCaveats(i.services, i.limits))
  }

  /** What MintL402 obtains from its collaborators; None is an error. */
  datatype MintInputs = MintInputs(
    challenge: (string, int) -> Option<(string, Bytes32)>, tokenID: Option<Bytes32>,
    secret: Option<Bytes>, insertFails: bool,
    capabilities: Option<seq<Caveat>>, constraints: Option<seq<Caveat>>, timeouts: Option<seq<Caveat>>,
    revokeFails: bool)

  /** The bytes of a version-0 identifier. */
  function FreshId(paymentHash: Bytes32, tokenID: Bytes32): Bytes {
    Encoded(Identifier(0, paymentHash, tokenID)).value
  }

  /** createUniqueIdentifier, given the random token ID. */
  method UniqueIdentifier(paymentHash: Bytes32, tokenID: Bytes32) returns (id: Bytes)
    ensures id == FreshId(paymentHash, tokenID)
    ensures Decoded(id) == Some(Identifier(0, paymentHash, tokenID))
  {
    var ident := Identifier(0, paymentHash, tokenID);
    var ok;
    id, ok := EncodeIdentifier(ident);
    IdentifierRoundTrip(ident);
  }

  /** What the limiter adds to a token for these services. */
  function LimitsOf(services: seq<Service>, inputs: MintInputs): seq<Caveat> {
    if services == [] || inputs.capabilities.None? || inputs.constraints.None? || inputs.timeouts.None? then []
    else inputs.capabilities.value + inputs.constraints.value + inputs.timeouts.value
  }

  /** All first restrictions can be had. */
  predicate Restricts(services: seq<Service>, inputs: MintInputs) {
    services == [] ||
    (EncodedServices(services).Ok? && inputs.capabilities.Some? && inputs.constraints.Some? && inputs.timeouts.Some?)
  }

  /** caveatsForServices: the services caveat first, then whatever the limiter adds. */
  method CaveatsForServices(services: seq<Service>, inputs: MintInputs) returns (r: Option<seq<Caveat>>)
    requires services != []
    ensures r.Some? <==> Restricts(services, inputs)
    ensures r.Some? ==> r.value == FirstCaveats(services, LimitsOf(services, inputs))
  {
    var encoded := EncodeServices(services);
    if encoded.Err? || inputs.capabilities.None? || inputs.constraints.None? || inputs.timeouts.None? {
      return None;
    }
    var caveats := [Caveat(COND_SERVICES, encoded.value)];
    caveats := caveats + (inputs.capabilities.value + inputs.constraints.value + inputs.timeouts.value);
    return Some(caveats);
  }

  /** The macaroon over a fresh secret with all restrictions that apply at once, or none if one cannot be
      had. */
  method FirstToken(secret: Bytes, id: Bytes, services: seq<Service>, inputs: MintInputs) returns (r: Option<Macaroon>)
    ensures r.Some? <==> Restricts(services, inputs)
    ensures r.Some? ==>
              && r.value == AppendAll(NewMacaroon(secret, id), FirstCaveats(services, LimitsOf(services, inputs)))
              && r.value.id == id
  {
    var caveats := [];
    if |services| > 0 {
      var applied := CaveatsForServices(services, inputs);
      if applied.None? {
        return None;
      }
      caveats := applied.value;
    }
    var mac := AddFirstPartyCaveats(NewMacaroon(secret, id), caveats);
    return Some(mac);
  }

  /** The store takes a new row: a secret was drawn, the insert works, and both unique columns are free. */
  ghost predicate Free(rows: seq<Row>, idHash: Bytes, secret: Bytes) {
    forall i | 0 <= i < |rows| :: rows[i].idHash != idHash && rows[i].secret != secret
  }

  ghost predicate Stores(rows: seq<Row>, idHash: Bytes, inputs: MintInputs) {
    inputs.secret.Some? && !inputs.insertFails && Free(rows, idHash, inputs.secret.value)
  }

  ghost predicate UniqueRows(rows: seq<Row>) {
    forall i, j | 0 <= i < j < |rows| :: rows[i].idHash != rows[j].idHash && rows[i].secret != rows[j].secret
  }

  /** The token MintL402 makes for a payment hash. */
  ghost function NewIssue(services: seq<Service>, inputs: MintInputs, paymentHash: Bytes32): Issue
    requires inputs.tokenID.Some? && inputs.secret.Some? && Restricts(services, inputs)
  {
    var id, limits := FreshId(paymentHash, inputs.tokenID.value), LimitsOf(services, inputs);
    Issue(AppendAll(NewMacaroon(inputs.secret.value, id), FirstCaveats(services, limits)),
          inputs.secret.value, paymentHash, services, limits)
  }

  ghost function NewRow(sha: Bytes -> Bytes, inputs: MintInputs, paymentHash: Bytes32): Row
    requires inputs.tokenID.Some? && inputs.secret.Some?
  {
    Row(sha(FreshId(paymentHash, inputs.tokenID.value)), paymentHash, inputs.secret.value, None)
  }

  lemma NewIssueWell(services: seq<Service>, inputs: MintInputs, paymentHash: Bytes32)
    requires inputs.tokenID.Some? && inputs.secret.Some? && Restricts(services, inputs)
    ensures var i := NewIssue(services, inputs, paymentHash);
            WellIssued(i) && i.mac.id == FreshId(paymentHash, inputs.tokenID.value)
  {
    IdentifierRoundTrip(Identifier(0, paymentHash, inputs.tokenID.value));
    AppendAllShape(NewMacaroon(inputs.secret.value, FreshId(paymentHash, inputs.tokenID.value)),
                   FirstCaveats(services, LimitsOf(services, inputs)));
  }

  /** What MintL402 does once it has, or has not, a challenge. */
  ghost predicate MintedFor(sha: Bytes -> Bytes, services: seq<Service>, inputs: MintInputs,
                            challenge: Option<(string, Bytes32)>,
                            rows: seq<Row>, issued: seq<Issue>, rows': seq<Row>, issued': seq<Issue>,
                            r: Option<(Macaroon, string)>)
  {
    if challenge.None? || inputs.tokenID.None?
       || !Stores(rows, sha(FreshId(challenge.value.1, inputs.tokenID.value)), inputs)
    then r == None && rows' == rows && issued' == issued
    else
      var (request, paymentHash) := challenge.value;
      var row := NewRow(sha, inputs, paymentHash);
      if Restricts(services, inputs) then
        var i := NewIssue(services, inputs, paymentHash);
        r == Some((i.mac, request)) && rows' == rows + [row] && issued' == issued + [i]
      else r == None && issued' == issued && rows' == if inputs.revokeFails then rows + [row] else rows
  }

  /** What a call of MintL402 does to the secret store and the tokens issued: it succeeds exactly when there
      is a challenge for the highest price, the store takes the row and all restrictions can be had. */
  ghost predicate Minted(sha: Bytes -> Bytes, services: seq<Service>, inputs: MintInputs, rows: seq<Row>,
                         issued: seq<Issue>, rows': seq<Row>, issued': seq<Issue>, r: Option<(Macaroon, string)>)
  {
    exists recipient, price ::
      && TopPrice(services, recipient, price)
      && MintedFor(sha, services, inputs, inputs.challenge(recipient, price), rows, issued, rows', issued', r)
  }

  /** There is one highest price and one recipient of it. */
  lemma TopPriceUnique(services: seq<Service>, r1: string, p1: int, r2: string, p2: int)
    requires TopPrice(services, r1, p1) && TopPrice(services, r2, p2)
    ensures r1 == r2 && p1 == p2
  {
    if p1 > 0 {
      var i :| && 0 <= i < |services| && services[i].price == p1 && services[i].recipientLud16 == r1
               && forall j | 0 <= j < i :: services[j].price < p1;
      assert p1 <= p2;
    }
    if p2 > 0 {
      var i :| && 0 <= i < |services| && services[i].price == p2 && services[i].recipientLud16 == r2
               && forall j | 0 <= j < i :: services[j].price < p2;
      assert p2 <= p1;
    }
  }

  /** So the outcome of minting is determined by what it is given. */
  lemma MintDetermined(sha: Bytes -> Bytes, services: seq<Service>, inputs: MintInputs, rows: seq<Row>,
                       issued: seq<Issue>, rows1: seq<Row>, issued1: seq<Issue>, r1: Option<(Macaroon, string)>,
                       rows2: seq<Row>, issued2: seq<Issue>, r2: Option<(Macaroon, string)>)
    requires Minted(sha, services, inputs, rows, issued, rows1, issued1, r1)
    requires Minted(sha, services, inputs, rows, issued, rows2, issued2, r2)
    ensures rows1 == rows2 && issued1 == issued2 && r1 == r2
  {
    var recipient, price :|
      && TopPrice(services, recipient, price)
      && MintedFor(sha, services, inputs, inputs.challenge(recipient, price), rows, issued, rows1, issued1, r1);
    var recipient2, price2 :|
      && TopPrice(services, recipient2, price2)
      && MintedFor(sha, services, inputs, inputs.challenge(recipient2, price2), rows, issued, rows2, issued2, r2);
    TopPriceUnique(services, recipient, price, recipient2, price2);
    MintedForDetermined(sha, services, inputs, inputs.challenge(recipient, price), rows, issued, rows1, issued1, r1,
                        rows2, issued2, r2);
  }

  lemma MintedForDetermined(sha: Bytes -> Bytes, services: seq<Service>, inputs: MintInputs,
                            challenge: Option<(string, Bytes32)>, rows: seq<Row>, issued: seq<Issue>,
                            rows1: seq<Row>, issued1: seq<Issue>, r1: Option<(Macaroon, string)>,
                            rows2: seq<Row>, issued2: seq<Issue>, r2: Option<(Macaroon, string)>)
    requires MintedFor(sha, services, inputs, challenge, rows, issued, rows1, issued1, r1)
    requires MintedFor(sha, services, inputs, challenge, rows, issued, rows2, issued2, r2)
    ensures rows1 == rows2 && issued1 == issued2 && r1 == r2
  {
  }

  /** Everything minting needs is at hand. */
  ghost predicate Mintable(sha: Bytes -> Bytes, services: seq<Service>, inputs: MintInputs, rows: seq<Row>,
                           recipient: string, price: int)
  {
    && TopPrice(services, recipient, price)
    && inputs.challenge(recipient, price).Some? && inputs.tokenID.Some? && inputs.secret.Some? && !inputs.insertFails
    && (forall i | 0 <= i < |rows| ::
          && rows[i].idHash != sha(FreshId(inputs.challenge(recipient, price).value.1, inputs.tokenID.value))
          && rows[i].secret != inputs.secret.value)
    && (services != [] ==>
          && (forall i | 0 <= i < |services| :: services[i].name != "")
          && inputs.capabilities.Some? && inputs.constraints.Some? && inputs.timeouts.Some?)
  }

  /** Minting succeeds exactly then. */
  lemma MintSucceedsIff(sha: Bytes -> Bytes, services: seq<Service>, inputs: MintInputs, rows: seq<Row>,
                        issued: seq<Issue>, rows': seq<Row>, issued': seq<Issue>, r: Option<(Macaroon, string)>,
                        recipient: string, price: int)
    requires Minted(sha, services, inputs, rows, issued, rows', issued', r) && TopPrice(services, recipient, price)
    ensures r.Some? <==> Mintable(sha, services, inputs, rows, recipient, price)
  {
    var recipient2, price2 :|
      && TopPrice(services, recipient2, price2)
      && MintedFor(sha, services, inputs, inputs.challenge(recipient2, price2), rows, issued, rows', issued', r);
    TopPriceUnique(services, recipient, price, recipient2, price2);
  }

  /** A token that is minted has one row, found by its identifier, which holds the hash of the challenge and no
      settle date yet. */
  lemma MintedRow(sha: Bytes -> Bytes, services: seq<Service>, inputs: MintInputs, rows: seq<Row>, issued: seq<Issue>,
                  rows': seq<Row>, issued': seq<Issue>, mac: Macaroon, request: string, recipient: string, price: int)
    requires Minted(sha, services, inputs, rows, issued, rows', issued', Some((mac, request)))
    requires TopPrice(services, recipient, price)
    ensures inputs.challenge(recipient, price).Some? && inputs.challenge(recipient, price).value.0 == request
    ensures inputs.tokenID.Some? && inputs.secret.Some?
    ensures var hash := inputs.challenge(recipient, price).value.1;
            && Decoded(mac.id) == Some(Identifier(0, hash, inputs.tokenID.value))
            && rows' == rows + [Row(sha(mac.id), hash, inputs.secret.value, None)] && |issued'| == |issued| + 1
  {
    var recipient2, price2 :|
      && TopPrice(services, recipient2, price2)
      && MintedFor(sha, services, inputs, inputs.challenge(recipient2, price2), rows, issued, rows', issued',
                   Some((mac, request)));
    TopPriceUnique(services, recipient, price, recipient2, price2);
    var hash := inputs.challenge(recipient, price).value.1;
    NewIssueWell(services, inputs, hash);
    IdentifierRoundTrip(Identifier(0, hash, inputs.tokenID.value));
  }

  /** A mint that fails issues nothing, and leaves nothing in the store unless revoking the secret failed too. */
  lemma FailedMint(sha: Bytes -> Bytes, services: seq<Service>, inputs: MintInputs, rows: seq<Row>,
                   issued: seq<Issue>, rows': seq<Row>, issued': seq<Issue>)
    requires Minted(sha, services, inputs, rows, issued, rows', issued', None)
    ensures issued' == issued && (!inputs.revokeFails ==> rows' == rows)
  {
  }

  /** What every mint keeps: rows are unique, and every issued token is well made. */
  lemma MintKeepsStore(sha: Bytes -> Bytes, services: seq<Service>, inputs: MintInputs, rows: seq<Row>,
                       issued: seq<Issue>, rows': seq<Row>, issued': seq<Issue>, r: Option<(Macaroon, string)>)
    requires Minted(sha, services, inputs, rows, issued, rows', issued', r)
    ensures rows <= rows' && issued <= issued' && |issued'| <= |issued| + 1
    ensures rows' == rows
         || (|rows'| == |rows| + 1 && inputs.secret == Some(rows'[|rows|].secret) && rows'[|rows|].settledAt == None)
    ensures UniqueRows(rows) ==> UniqueRows(rows')
    ensures |issued'| == |issued| + 1 ==> WellIssued(issued'[|issued|])
  {
    var recipient, price :|
      && TopPrice(services, recipient, price)
      && MintedFor(sha, services, inputs, inputs.challenge(recipient, price), rows, issued, rows', issued', r);
    if r.Some? {
      NewIssueWell(services, inputs, inputs.challenge(recipient, price).value.1);
    }
  }

  class Minter {
    const sha: Bytes -> Bytes
    var rows: seq<Row>
    ghost var issued: seq<Issue>

    /** idHash and secret are unique columns, and every issued token is what MintL402 builds. */
    ghost predicate Valid()
      reads this
    {
      UniqueRows(rows) && forall i | 0 <= i < |issued| :: WellIssued(issued[i])
    }

    constructor (sha: Bytes -> Bytes)
      ensures Valid() && rows == [] && issued == [] && this.sha == sha
    {
      this.sha := sha;
      rows := [];
      issued := [];
    }

    /** NewSecret: one row, unless the insert fails or a unique column is taken. */
    method NewSecret(idHash: Bytes, paymentHash: Bytes32, inputs: MintInputs) returns (r: Option<Bytes>)
      requires Valid()
      modifies this`rows
      ensures Valid()
      ensures r.Some? <==> Stores(old(rows), idHash, inputs)
      ensures r.Some? ==> r == inputs.secret && rows == old(rows) + [Row(idHash, paymentHash, r.value, None)]
      ensures r.None? ==> rows == old(rows)
    {
      if inputs.secret.None? || inputs.insertFails {
        return None;
      }
      var taken := false;
      for i := 0 to |rows|
        invariant !taken <==> Free(rows[..i], idHash, inputs.secret.value)
      {
        taken := taken || rows[i].idHash == idHash || rows[i].secret == inputs.secret.value;
      }
      assert rows[..|rows|] == rows;
      if taken {
        return None;
      }
      rows := rows + [Row(idHash, paymentHash, inputs.secret.value, None)];
      return inputs.secret;
    }

    /** RevokeSecret, best effort, of the row just added. */
    method RevokeLast(fails: bool)
      requires Valid() && |rows| > 0
      modifies this`rows
      ensures Valid()
      ensures rows == if fails then old(rows) else old(rows)[..|old(rows)| - 1]
    {
      if !fails {
        rows := rows[..|rows| - 1];
      }
    }

    /** MintL402. */
    method MintL402(services: seq<Service>, inputs: MintInputs) returns (r: Option<(Macaroon, string)>)
      requires Valid()
      modifies this
      ensures Valid()
      ensures Minted(sha, services, inputs, old(rows), old(issued), rows, issued, r)
    {
      var recipient, price := PaymentDetailsForMaxPrice(services);
      var challenge := inputs.challenge(recipient, price);
      if challenge.None? || inputs.tokenID.None? {
        return None;
      }
      var (request, paymentHash) := challenge.value;
      var id := UniqueIdentifier(paymentHash, inputs.tokenID.value);
      var secret := NewSecret(sha(id), paymentHash, inputs);
      if secret.None? {
        return None;
      }
      var mac := FirstToken(secret.value, id, services, inputs);
      if mac.None? {
        RevokeLast(inputs.revokeFails);
        return None;
      }
      NewIssueWell(services, inputs, paymentHash);
      issued := issued + [NewIssue(services, inputs, paymentHash)];
      return Some((mac.value, request));
    }
  }

  // ---------------------------------------------------------------- soundness

  /** Signatures somebody can produce who has seen some tokens and knows some keys of his own. */
  ghost predicate Derivable(sig: Sig, seen: set<Sig>, keys: set<Bytes>) {
    sig in seen ||
    match sig
    case Root(secret, _) => secret in keys
    case Step(prev, _) => Derivable(prev, seen, keys)
  }

  lemma {:induction false} DerivedFromSeen(secret: Bytes, id: Bytes, caveats: seq<string>, seen: set<Sig>,
                                           keys: set<Bytes>)
    returns (j: nat)
    requires Derivable(SigOver(secret, id, caveats), seen, keys) && secret !in keys
    ensures j <= |caveats| && SigOver(secret, id, caveats[..j]) in seen
  {
    j := |caveats|;
    assert caveats[..j] == caveats;
    if SigOver(secret, id, caveats) !in seen {
      var n := |caveats| - 1;
      j := DerivedFromSeen(secret, id, caveats[..n], seen, keys);
      assert caveats[..n][..j] == caveats[..j];
    }
  }

  lemma {:induction false} SigInjective(s1: Bytes, id1: Bytes, c1: seq<string>, s2: Bytes, id2: Bytes, c2: seq<string>)
    requires SigOver(s1, id1, c1) == SigOver(s2, id2, c2)
    ensures s1 == s2 && id1 == id2 && c1 == c2
    decreases |c1|
  {
    if c1 != [] {
      var n1, n2 := |c1| - 1, |c2| - 1;
      SigInjective(s1, id1, c1[..n1], s2, id2, c2[..n2]);
      assert c1 == c1[..n1] + [c1[n1]] && c2 == c2[..n2] + [c2[n2]];
    }
  }

  lemma IssuedSig(i: Issue)
    requires WellIssued(i)
    ensures i.mac.caveats == RawAll(FirstCaveats(i.services, i.limits))
    ensures i.mac.sig == SigOver(i.secret, i.mac.id, i.mac.caveats)
  {
    var m := NewMacaroon(i.secret, i.mac.id);
    var raws := RawAll(FirstCaveats(i.services, i.limits));
    assert m.sig == SigOver(i.secret, m.id, m.caveats);
    AppendAllShape(m, FirstCaveats(i.services, i.limits));
    assert m.caveats + raws == raws;
  }

  lemma {:induction false} RawAllHead(c: Caveat, cs: seq<Caveat>)
    ensures RawAll([c] + cs) == [EncodeCaveat(c)] + RawAll(cs)
  {
    var all := [c] + cs;
    if cs == [] {
      assert all[..|all| - 1] == [];
    } else {
      assert all[..|all| - 1] == [c] + cs[..|cs| - 1];
      RawAllHead(c, cs[..|cs| - 1]);
    }
  }

  lemma ReadableSingle(c: Caveat)
    requires '=' !in c.condition
    ensures Readable([EncodeCaveat(c)]) == [c]
  {
    CaveatRoundTrip(c);
    assert [EncodeCaveat(c)][..0] == [];
    assert Readable([]) + ReadableOne(EncodeCaveat(c)) == [c];
  }

  /** The readable caveats of a fresh token start with its services caveat. */
  lemma FreshCaveats(i: Issue)
    requires WellIssued(i) && i.services != []
    ensures Readable(i.mac.caveats) == [ServicesCaveat(i.services)] + Readable(RawAll(i.limits))
  {
    var c := ServicesCaveat(i.services);
    IssuedSig(i);
    RawAllHead(c, i.limits);
    ReadableSingle(c);
    ReadableConcat([EncodeCaveat(c)], RawAll(i.limits));
  }

  ghost function SigsOf(issued: seq<Issue>): set<Sig> {
    set i | 0 <= i < |issued| :: issued[i].mac.sig
  }

  /** A derivable signature that verifies under a secret nobody else holds extends an issued token. */
  lemma ExtendsIssued(issued: seq<Issue>, keys: set<Bytes>, secret: Bytes, m: Macaroon) returns (k: nat)
    requires forall i | 0 <= i < |issued| :: WellIssued(issued[i])
    requires secret !in keys && Derivable(m.sig, SigsOf(issued), keys)
    requires m.sig == SigOver(secret, m.id, m.caveats)
    ensures k < |issued| && m.id == issued[k].mac.id && issued[k].mac.caveats <= m.caveats
  {
    var j := DerivedFromSeen(secret, m.id, m.caveats, SigsOf(issued), keys);
    k :| 0 <= k < |issued| && issued[k].mac.sig == SigOver(secret, m.id, m.caveats[..j]);
    IssuedSig(issued[k]);
    SigInjective(issued[k].secret, issued[k].mac.id, issued[k].mac.caveats, secret, m.id, m.caveats[..j]);
  }

  /** The services of an issued token bound every accepted extension of it. */
  lemma BoundByIssue(i: Issue, caveats: seq<string>, target: string, nowSec: int)
    requires WellIssued(i) && i.services != [] && i.mac.caveats <= caveats
    requires Verified(Readable(caveats), TokenSatisfiers(target, nowSec))
    ensures ServicesAllow(target, ServicesCaveat(i.services))
  {
    var j := |i.mac.caveats|;
    assert caveats == i.mac.caveats + caveats[j..];
    ReadableConcat(i.mac.caveats, caveats[j..]);
    FreshCaveats(i);
    var all := Readable(caveats);
    assert all[0] == ServicesCaveat(i.services);
    AcceptedChain(all, target, nowSec, 0);
  }

  /** Whatever tokens somebody has seen and whatever he appends, a credential is accepted only if it
      extends a token this mint issued, its preimage pays that token's invoice, and the target is among the
      services that token names. */
  lemma TokenSoundness(sha: Bytes -> Bytes, rows: seq<Row>, issued: seq<Issue>, keys: set<Bytes>, m: Macaroon,
                       preimage: Bytes, target: string, nowSec: int) returns (k: nat)
    requires forall i | 0 <= i < |issued| :: WellIssued(issued[i])
    requires forall i | 0 <= i < |rows| :: rows[i].secret !in keys
    requires Derivable(m.sig, SigsOf(issued), keys)
    requires Verifies(sha, rows, m, preimage, target, nowSec)
    ensures k < |issued|
    ensures m.id == issued[k].mac.id && issued[k].mac.caveats <= m.caveats
    ensures sha(preimage) == issued[k].paymentHash
    ensures issued[k].services != [] && DelimiterFree(issued[k].services) ==> NamesService(issued[k].services, target)
  {
    var secret := SecretOf(rows, sha(m.id)).value;
    k := ExtendsIssued(issued, keys, secret, m);
    assert WellIssued(issued[k]);
    if issued[k].services != [] && DelimiterFree(issued[k].services) {
      BoundByIssue(issued[k], m.caveats, target, nowSec);
      NamedService(issued[k].services, target);
    }
  }

  ghost predicate NamesService(services: seq<Service>, target: string) {
    exists i :: 0 <= i < |services| && services[i].name == target
  }

  /** A delimiter-free services caveat allows exactly the services it was made of. */
  lemma NamedService(services: seq<Service>, target: string)
    requires EncodedServices(services).Ok? && DelimiterFree(services)
    ensures ServicesAllow(target, ServicesCaveat(services)) <==> NamesService(services, target)
  {
    ServicesRoundTrip(services);
    var bare := Bare(services);
    var value := ServicesCaveat(services).value;
    if NamesService(services, target) {
      var i :| 0 <= i < |services| && services[i].name == target;
      assert bare[i].name == target;
      assert target in Names(value);
    }
    if ServicesAllow(target, ServicesCaveat(services)) {
      var i :| 0 <= i < |bare| && bare[i].name == target;
      assert services[i].name == target;
    }
  }

  // ---------------------------------------------------------------- completeness

  /** What the limiter contributed, as VerifyL402 reads it back. */
  function Limits(i: Issue): seq<Caveat> {
    Readable(RawAll(i.limits))
  }

  lemma SingleChain(c: Caveat, limits: seq<Caveat>, condition: string)
    ensures Chain([c] + limits, condition) == (if c.condition == condition then [c] else []) + Chain(limits, condition)
  {
    ChainConcat([c], limits, condition);
    assert [c][..0] == [];
    assert Chain([], condition) == [];
  }

  lemma FreshChains(i: Issue, target: string)
    requires WellIssued(i) && i.services != []
    ensures Chain(Readable(i.mac.caveats), COND_SERVICES)
         == [ServicesCaveat(i.services)] + Chain(Limits(i), COND_SERVICES)
    ensures Chain(Readable(i.mac.caveats), target + TIMEOUT_SUFFIX) == Chain(Limits(i), target + TIMEOUT_SUFFIX)
  {
    FreshCaveats(i);
    TokenConditionsDiffer(target);
    SingleChain(ServicesCaveat(i.services), Limits(i), COND_SERVICES);
    SingleChain(ServicesCaveat(i.services), Limits(i), target + TIMEOUT_SUFFIX);
  }

  lemma SingletonHolds(s: Satisfier, c: Caveat)
    ensures ChainHolds(s, [c]) <==> s.satisfyFinal(c)
  {
  }

  /** A secret is found by the hash of its identifier, because that column is unique. */
  lemma {:induction false} SecretFound(rows: seq<Row>, k: nat)
    requires UniqueRows(rows) && k < |rows|
    ensures SecretOf(rows, rows[k].idHash) == Some(rows[k].secret)
  {
    if k > 0 {
      var rest := rows[1..];
      assert forall i | 0 <= i < |rest| :: rest[i] == rows[i + 1];
      SecretFound(rest, k - 1);
    }
  }

  /** The store as it may be later: more rows, and settle dates filled in. */
  ghost predicate Later(rows: seq<Row>, later: seq<Row>) {
    && |rows| <= |later| && UniqueRows(later)
    && forall i | 0 <= i < |rows| :: later[i].idHash == rows[i].idHash && later[i].secret == rows[i].secret
  }

  /** An issued token whose secret is in the store verifies exactly when the preimage is right, the chain of
      services caveats that starts with its own allows the target, and the limiter's timeouts for the target
      are in order and still ahead. */
  lemma IssueVerifiesIff(sha: Bytes -> Bytes, rows: seq<Row>, i: Issue, preimage: Bytes, target: string, nowSec: int)
    requires WellIssued(i) && i.services != []
    requires SecretOf(rows, sha(i.mac.id)) == Some(i.secret)
    ensures Verifies(sha, rows, i.mac, preimage, target, nowSec)
       <==> && sha(preimage) == i.paymentHash
            && ChainHolds(ServicesSatisfier(target), [ServicesCaveat(i.services)] + Chain(Limits(i), COND_SERVICES))
            && ChainHolds(TimeoutSatisfier(target, nowSec), Chain(Limits(i), target + TIMEOUT_SUFFIX))
  {
    IssuedSig(i);
    FreshChains(i, target);
    TokenVerifiedIff(Readable(i.mac.caveats), target, nowSec);
  }

  /** If the limiter adds no services caveat of its own, the services that were minted decide. */
  lemma OwnServicesDecide(i: Issue, target: string)
    requires WellIssued(i) && i.services != [] && DelimiterFree(i.services) && Chain(Limits(i), COND_SERVICES) == []
    ensures ChainHolds(ServicesSatisfier(target), [ServicesCaveat(i.services)] + Chain(Limits(i), COND_SERVICES))
       <==> NamesService(i.services, target)
  {
    var c := ServicesCaveat(i.services);
    assert [c] + [] == [c];
    SingletonHolds(ServicesSatisfier(target), c);
    assert ServicesSatisfier(target).satisfyFinal(c) <==> ServicesAllow(target, c);
    NamedService(i.services, target);
  }

  /** A token minted for no service at all is not tied to any: it verifies for every target. */
  lemma NoServicesUnrestricted(sha: Bytes -> Bytes, rows: seq<Row>, i: Issue, preimage: Bytes, target: string,
                               nowSec: int)
    requires WellIssued(i) && i.services == []
    requires SecretOf(rows, sha(i.mac.id)) == Some(i.secret)
    ensures Verifies(sha, rows, i.mac, preimage, target, nowSec) <==> sha(preimage) == i.paymentHash
  {
    IssuedSig(i);
    assert Readable(i.mac.caveats) == [];
    TokenVerifiedIff([], target, nowSec);
  }

  lemma MintedToken(sha: Bytes -> Bytes, services: seq<Service>, inputs: MintInputs, rows: seq<Row>, issued: seq<Issue>,
                    rows': seq<Row>, issued': seq<Issue>, mac: Macaroon, request: string, later: seq<Row>)
    requires Minted(sha, services, inputs, rows, issued, rows', issued', Some((mac, request))) && Later(rows', later)
    ensures |issued'| == |issued| + 1 && WellIssued(issued'[|issued|])
    ensures var i := issued'[|issued|];
            && i.mac == mac && i.services == services && i.limits == LimitsOf(services, inputs)
            && SecretOf(later, sha(mac.id)) == Some(i.secret)
    ensures exists recipient, price ::
              && TopPrice(services, recipient, price)
              && inputs.challenge(recipient, price) == Some((request, issued'[|issued|].paymentHash))
  {
    var recipient, price :|
      && TopPrice(services, recipient, price)
      && MintedFor(sha, services, inputs, inputs.challenge(recipient, price), rows, issued, rows', issued',
                   Some((mac, request)));
    NewIssueWell(services, inputs, inputs.challenge(recipient, price).value.1);
    assert rows'[|rows|].idHash == sha(mac.id);
    SecretFound(later, |rows|);
  }

  /** The macaroon MintL402 returns, presented at any later time to the store it was minted in: it verifies
      exactly when the preimage pays its challenge and, unless it was minted for no service, the services
      chain and the target's timeouts hold. With delimiter-free names and no services caveat from the
      limiter, the services chain holds for exactly the services minted. */
  lemma TokenCompleteness(sha: Bytes -> Bytes, services: seq<Service>, inputs: MintInputs, rows: seq<Row>,
                          issued: seq<Issue>,
                          rows': seq<Row>, issued': seq<Issue>, mac: Macaroon, request: string, later: seq<Row>,
                          preimage: Bytes, target: string, nowSec: int) returns (paymentHash: Bytes32)
    requires Minted(sha, services, inputs, rows, issued, rows', issued', Some((mac, request))) && Later(rows', later)
    ensures exists recipient, price :: TopPrice(services, recipient, price)
                                       && inputs.challenge(recipient, price) == Some((request, paymentHash))
    ensures services == [] ==> (Verifies(sha, later, mac, preimage, target, nowSec) <==> sha(preimage) == paymentHash)
    ensures services != [] ==> EncodedServices(services).Ok?
    ensures var limits := Readable(RawAll(LimitsOf(services, inputs)));
            && (services != [] ==>
                  (Verifies(sha, later, mac, preimage, target, nowSec) <==>
                     && sha(preimage) == paymentHash
                     && ChainHolds(ServicesSatisfier(target), [ServicesCaveat(services)] + Chain(limits, COND_SERVICES))
                     && ChainHolds(TimeoutSatisfier(target, nowSec), Chain(limits, target + TIMEOUT_SUFFIX))))
            && (services != [] && DelimiterFree(services) && Chain(limits, COND_SERVICES) == [] ==>
                  (Verifies(sha, later, mac, preimage, target, nowSec) <==>
                     && sha(preimage) == paymentHash && NamesService(services, target)
                     && ChainHolds(TimeoutSatisfier(target, nowSec), Chain(limits, target + TIMEOUT_SUFFIX))))
  {
    MintedToken(sha, services, inputs, rows, issued, rows', issued', mac, request, later);
    var i := issued'[|issued|];
    paymentHash := i.paymentHash;
    if services == [] {
      NoServicesUnrestricted(sha, later, i, preimage, target, nowSec);
    } else {
      IssueVerifiesIff(sha, later, i, preimage, target, nowSec);
      if DelimiterFree(services) && Chain(Limits(i), COND_SERVICES) == [] {
        OwnServicesDecide(i, target);
      }
    }
  }

  // ---------------------------------------------------------------- what a minted token says

  lemma {:induction false} RawAllAt(cs: seq<Caveat>, k: nat)
    requires k < |cs|
    ensures |RawAll(cs)| == |cs| && RawAll(cs)[k] == EncodeCaveat(cs[k])
  {
    var n := |cs| - 1;
    if n > 0 {
      RawAllAt(cs[..n], if k < n then k else 0);
    }
  }

  /** The caveats of the macaroon MintL402 returns, for at least one service: the services, then all that the
      limiter returned, capabilities first, then constraints, then timeouts. */
  lemma MintedCaveats(sha: Bytes -> Bytes, services: seq<Service>, inputs: MintInputs, rows: seq<Row>,
                      issued: seq<Issue>, rows': seq<Row>, issued': seq<Issue>, mac: Macaroon, request: string)
    requires Minted(sha, services, inputs, rows, issued, rows', issued', Some((mac, request))) && services != []
    ensures EncodedServices(services).Ok?
    ensures inputs.capabilities.Some? && inputs.constraints.Some? && inputs.timeouts.Some?
    ensures var added := inputs.capabilities.value + inputs.constraints.value + inputs.timeouts.value;
            && |mac.caveats| == 1 + |added|
            && mac.caveats[0] == "services=" + EncodedServices(services).value
            && forall j | 0 <= j < |added| :: mac.caveats[1 + j] == added[j].condition + "=" + added[j].value
  {
    var recipient, price :|
      && TopPrice(services, recipient, price)
      && MintedFor(sha, services, inputs, inputs.challenge(recipient, price), rows, issued, rows', issued',
                   Some((mac, request)));
    var i := NewIssue(services, inputs, inputs.challenge(recipient, price).value.1);
    NewIssueWell(services, inputs, inputs.challenge(recipient, price).value.1);
    IssuedSig(i);
    CaveatsSpelled(services, inputs);
  }

  lemma Spelled(c: Caveat, raw: string)
    requires raw == EncodeCaveat(c)
    ensures raw == c.condition + "=" + c.value
    ensures c.condition == "services" ==> raw == "services=" + c.value
  {
    if c.condition == "services" {
      assert "services" + "=" == "services=";
    }
  }

  lemma CaveatsSpelled(services: seq<Service>, inputs: MintInputs)
    requires services != [] && Restricts(services, inputs)
    ensures var raws := RawAll(FirstCaveats(services, LimitsOf(services, inputs)));
            var added := inputs.capabilities.value + inputs.constraints.value + inputs.timeouts.value;
            && |raws| == 1 + |added| && raws[0] == "services=" + EncodedServices(services).value
            && forall j | 0 <= j < |added| :: raws[1 + j] == added[j].condition + "=" + added[j].value
  {
    var added := inputs.capabilities.value + inputs.constraints.value + inputs.timeouts.value;
    var cs := FirstCaveats(services, LimitsOf(services, inputs));
    assert cs == [Caveat("services", EncodedServices(services).value)] + added;
    RawAllAt(cs, 0);
    Spelled(cs[0], RawAll(cs)[0]);
    forall j | 0 <= j < |added| ensures RawAll(cs)[1 + j] == added[j].condition + "=" + added[j].value {
      RawAllAt(cs, 1 + j);
      assert cs[1 + j] == added[j];
      Spelled(cs[1 + j], RawAll(cs)[1 + j]);
    }
  }

  lemma {:induction false} ReadableHas(raws: seq<string>, k: nat) returns (j: nat)
    requires k < |raws| && DecodeCaveat(raws[k]).Some?
    ensures j < |Readable(raws)| && Readable(raws)[j] == DecodeCaveat(raws[k]).value
  {
    var n := |raws| - 1;
    if k < n {
      j := ReadableHas(raws[..n], k);
    } else {
      j := |Readable(raws[..n])|;
    }
  }

  lemma NoEquals(target: string)
    requires '=' !in target
    ensures '=' !in target + "_valid_until"
  {
    assert '=' !in "_valid_until";
  }

  lemma CaveatRead(raws: seq<string>, at: nat, c: Caveat) returns (k: nat)
    requires at < |raws| && raws[at] == c.condition + "=" + c.value && '=' !in c.condition
    ensures k < |Readable(raws)| && Readable(raws)[k] == c
  {
    assert raws[at] == EncodeCaveat(c);
    CaveatRoundTrip(c);
    k := ReadableHas(raws, at);
  }

  lemma SpentRaw(raws: seq<string>, at: nat, c: Caveat, target: string, now: int)
    requires at < |raws| && raws[at] == c.condition + "=" + c.value && Sensible(now)
    requires c.condition == target + "_valid_until" && '=' !in target
    requires ParseInt64(c.value).None? || ParseInt64(c.value).value <= now
    ensures !Verified(Readable(raws), TokenSatisfiers(target, UnixTime(now)))
  {
    NoEquals(target);
    var k := CaveatRead(raws, at, c);
    SpentTimeout(Readable(raws), target, now, k);
  }

  lemma MintedTimeout(sha: Bytes -> Bytes, services: seq<Service>, inputs: MintInputs, rows: seq<Row>,
                      issued: seq<Issue>, rows': seq<Row>, issued': seq<Issue>, mac: Macaroon, request: string,
                      j: nat) returns (at: nat)
    requires Minted(sha, services, inputs, rows, issued, rows', issued', Some((mac, request))) && services != []
    requires inputs.timeouts.Some? && j < |inputs.timeouts.value|
    ensures var c := inputs.timeouts.value[j]; at < |mac.caveats| && mac.caveats[at] == c.condition + "=" + c.value
  {
    MintedCaveats(sha, services, inputs, rows, issued, rows', issued', mac, request);
    var added := inputs.capabilities.value + inputs.constraints.value + inputs.timeouts.value;
    at := 1 + |inputs.capabilities.value| + |inputs.constraints.value| + j;
    assert added[at - 1] == inputs.timeouts.value[j];
  }

  /** A timeout the limiter returned for the target binds the token and whatever is made of it: once the clock
      has reached the number it gives, or if it gives none, no macaroon that starts with the minted caveats
      verifies for that target, whatever the store and the preimage. The target is a name without '=', which
      would move the end of the condition. */
  lemma LimiterTimeoutBinds(sha: Bytes -> Bytes, services: seq<Service>, inputs: MintInputs, rows: seq<Row>,
                            issued: seq<Issue>, rows': seq<Row>, issued': seq<Issue>, mac: Macaroon, request: string,
                            j: nat, m: Macaroon, store: seq<Row>, preimage: Bytes, target: string, now: int)
    requires Minted(sha, services, inputs, rows, issued, rows', issued', Some((mac, request))) && services != []
    requires mac.caveats <= m.caveats && Sensible(now) && inputs.timeouts.Some? && j < |inputs.timeouts.value|
    requires '=' !in target && inputs.timeouts.value[j].condition == target + "_valid_until"
    requires var t := ParseInt64(inputs.timeouts.value[j].value); t.None? || t.value <= now
    ensures !Verifies(sha, store, m, preimage, target, UnixTime(now))
  {
    var at := MintedTimeout(sha, services, inputs, rows, issued, rows', issued', mac, request, j);
    assert m.caveats[at] == mac.caveats[at];
    SpentRaw(m.caveats, at, inputs.timeouts.value[j], target, now);
  }
}
