/** Caveats, the services value codec, the satisfiers and VerifyCaveats. */
module Caveats {
  import opened Words
  import opened Text

  datatype Caveat = Caveat(condition: string, value: string)

  function EncodeCaveat(c: Caveat): string {
    c.condition + "=" + c.value
  }

  function DecodeCaveat(s: string): Option<Caveat> {
    match SplitFirst(s, '=')
    case None => None
    case Some((condition, value)) => Some(Caveat(condition, value))
  }

  /** Decoding inverts encoding exactly when the condition holds no '='. */
  lemma CaveatRoundTrip(c: Caveat)
    ensures DecodeCaveat(EncodeCaveat(c)) == Some(c) <==> '=' !in c.condition
  {
    if '=' !in c.condition {
      SplitFirstJoin(c.condition, '=', c.value);
    }
  }

  // ---------------------------------------------------------------- services

  datatype Service = Service(name: string, tier: byte, recipientLud16: string, price: int)

  datatype ServicesError = NoServices | MissingName | InvalidService

  function EncodeService(s: Service): string {
    s.name + ":" + FormatNat(s.tier)
  }

  /** The comma-separated list. */
  function JoinServices(ss: seq<Service>): string {
    if ss == [] then ""
    else if |ss| == 1 then EncodeService(ss[0])
    else EncodeService(ss[0]) + "," + JoinServices(ss[1..])
  }

  predicate AllNamed(ss: seq<Service>) {
    forall i | 0 <= i < |ss| :: ss[i].name != ""
  }

  function EncodedServices(ss: seq<Service>): Result<string, ServicesError> {
    if ss == [] then Err(NoServices)
    else if AllNamed(ss) then Ok(JoinServices(ss))
    else Err(MissingName)
  }

  /** encodeServicesCaveatValue: one pass over the list with a string builder. */
  method EncodeServices(ss: seq<Service>) returns (r: Result<string, ServicesError>)
    ensures r == EncodedServices(ss)
  {
    if |ss| == 0 {
      return Err(NoServices);
    }
    var s := "";
    for i := 0 to |ss|
      invariant AllNamed(ss[..i])
      invariant JoinServices(ss) == s + JoinServices(ss[i..])
    {
      if ss[i].name == "" {
        return Err(MissingName);
      }
      ghost var before := s;
      if i < |ss| - 1 {
        s := s + (EncodeService(ss[i]) + ",");
      } else {
        s := s + EncodeService(ss[i]);
      }
      JoinGrows(ss, i, before, s);
    }
    assert s + "" == s;
    return Ok(s);
  }

  lemma JoinGrows(ss: seq<Service>, i: nat, before: string, s: string)
    requires i < |ss|
    requires s == before + if i < |ss| - 1 then EncodeService(ss[i]) + "," else EncodeService(ss[i])
    ensures s + JoinServices(ss[i + 1..]) == before + JoinServices(ss[i..])
  {
    assert ss[i..][1..] == ss[i + 1..];
  }

  /** One "name:tier" item; the tier is converted to uint8 by truncation. */
  function DecodeService(raw: string): Option<Service> {
    var info := Split(raw, ':');
    if |info| != 2 || info[0] == "" || ParseInt64(info[1]).None? then None
    else Some(Service(info[0], ParseInt64(info[1]).value % 256, "", 0))
  }

  function DecodeItems(raws: seq<string>): Option<seq<Service>> {
    if raws == [] then Some([])
    else if DecodeService(raws[0]).None? || DecodeItems(raws[1..]).None? then None
    else Some([DecodeService(raws[0]).value] + DecodeItems(raws[1..]).value)
  }

  function DecodedServices(s: string): Result<seq<Service>, ServicesError> {
    if s == "" then Err(NoServices)
    else match DecodeItems(Split(s, ','))
      case None => Err(InvalidService)
      case Some(ss) => Ok(ss)
  }

  /** decodeServicesCaveatValue: one pass with a growing slice. */
  method DecodeServices(s: string) returns (r: Result<seq<Service>, ServicesError>)
    ensures r == DecodedServices(s)
  {
    if s == "" {
      return Err(NoServices);
    }
    var raws := Split(s, ',');
    var services := [];
    assert raws[0..] == raws;
    for i := 0 to |raws|
      invariant DecodeItems(raws).None? <==> DecodeItems(raws[i..]).None?
      invariant DecodeItems(raws).Some? ==> DecodeItems(raws).value == services + DecodeItems(raws[i..]).value
    {
      assert raws[i..][1..] == raws[i + 1..];
      var item := DecodeService(raws[i]);
      if item.None? {
        return Err(InvalidService);
      }
      services := services + [item.value];
    }
    assert raws[|raws|..] == [] && raws[0..] == raws;
    assert DecodeItems([]) == Some([]) && services + [] == services;
    return Ok(services);
  }

  /** What a caveat value remembers of a service. */
  function Bare(ss: seq<Service>): (r: seq<Service>)
    ensures |r| == |ss|
    ensures forall i | 0 <= i < |ss| :: r[i] == Service(ss[i].name, ss[i].tier, "", 0)
  {
    seq(|ss|, i requires 0 <= i < |ss| => Service(ss[i].name, ss[i].tier, "", 0))
  }

  predicate DelimiterFree(ss: seq<Service>) {
    forall i | 0 <= i < |ss| :: ',' !in ss[i].name && ':' !in ss[i].name
  }

  lemma DigitsHaveNoDelimiter(n: nat)
    ensures ',' !in FormatNat(n) && ':' !in FormatNat(n)
  {
  }

  lemma ServiceRoundTrip(s: Service)
    requires s.name != "" && ':' !in s.name
    ensures DecodeService(EncodeService(s)) == Some(Service(s.name, s.tier, "", 0))
  {
    DigitsHaveNoDelimiter(s.tier);
    SplitHead(s.name, ':', FormatNat(s.tier));
    SplitWhole(FormatNat(s.tier), ':');
    IntRoundTrip(s.tier);
  }

  /** A tier beyond a byte is cut off, as the conversion to uint8 does. */
  lemma TierTruncated(name: string, tier: nat)
    requires name != "" && ':' !in name && tier < TWO_63
    ensures DecodeService(name + ":" + FormatNat(tier)) == Some(Service(name, tier % 256, "", 0))
  {
    DigitsHaveNoDelimiter(tier);
    SplitHead(name, ':', FormatNat(tier));
    SplitWhole(FormatNat(tier), ':');
    IntRoundTrip(tier);
  }

  lemma ItemHasNoComma(s: Service)
    requires ',' !in s.name
    ensures ',' !in EncodeService(s)
  {
    DigitsHaveNoDelimiter(s.tier);
  }

  lemma ItemsCons(raw: string, raws: seq<string>, s: Service, ss: seq<Service>)
    requires DecodeService(raw) == Some(s) && DecodeItems(raws) == Some(ss)
    ensures DecodeItems([raw] + raws) == Some([s] + ss)
  {
    assert ([raw] + raws)[1..] == raws;
  }

  lemma {:induction false} ItemsRoundTrip(ss: seq<Service>)
    requires ss != [] && AllNamed(ss) && DelimiterFree(ss)
    ensures DecodeItems(Split(JoinServices(ss), ',')) == Some(Bare(ss))
  {
    var item, first := EncodeService(ss[0]), Service(ss[0].name, ss[0].tier, "", 0);
    ServiceRoundTrip(ss[0]);
    ItemHasNoComma(ss[0]);
    if |ss| == 1 {
      SplitWhole(item, ',');
      ItemsCons(item, [], first, []);
      assert [item] + [] == [item];
      assert Bare(ss) == [first] + [];
    } else {
      var rest := JoinServices(ss[1..]);
      SplitHead(item, ',', rest);
      ItemsRoundTrip(ss[1..]);
      ItemsCons(item, Split(rest, ','), first, Bare(ss[1..]));
      assert Bare(ss) == [first] + Bare(ss[1..]);
    }
  }

  lemma {:induction false} DecodedNames(raws: seq<string>)
    requires DecodeItems(raws).Some? && forall i | 0 <= i < |raws| :: ',' !in raws[i]
    ensures DelimiterFree(DecodeItems(raws).value)
  {
    if raws != [] {
      DecodedNames(raws[1..]);
      var info := Split(raws[0], ':');
      assert info[0] <= raws[0] by { SplitPrefix(raws[0], ':'); }
      assert forall c | c in info[0] :: c in raws[0];
    }
  }

  lemma {:induction false} SplitPrefix(s: string, sep: char)
    ensures Split(s, sep)[0] <= s
  {
    if s != "" {
      SplitPrefix(s[1..], sep);
    }
  }

  /** Names are not escaped: a named, non-empty list of services survives the trip through a caveat
      value exactly when no name holds a delimiter. */
  lemma ServicesRoundTrip(ss: seq<Service>)
    requires EncodedServices(ss).Ok?
    ensures DecodedServices(EncodedServices(ss).value) == Ok(Bare(ss)) <==> DelimiterFree(ss)
  {
    var s := JoinServices(ss);
    assert ':' in EncodeService(ss[0]);
    if DelimiterFree(ss) {
      ItemsRoundTrip(ss);
    } else if DecodedServices(s).Ok? {
      DecodedNames(Split(s, ','));
      if DecodedServices(s) == Ok(Bare(ss)) {
        forall i | 0 <= i < |ss| ensures ',' !in ss[i].name && ':' !in ss[i].name {
          assert Bare(ss)[i].name == ss[i].name;
        }
      }
    }
  }

  // ---------------------------------------------------------------- satisfiers

  /** The two closures answer whether they return a nil error. */
  datatype Satisfier = Satisfier(
    condition: string,
    satisfyPrevious: (Caveat, Caveat) -> bool,
    satisfyFinal: Caveat -> bool)

  const COND_SERVICES: string := "services"
  const TIMEOUT_SUFFIX: string := "_valid_until"
  const CAPABILITIES_SUFFIX: string := "_capabilities"

  function Names(s: string): set<string>
    requires DecodedServices(s).Ok?
  {
    var ss := DecodedServices(s).value;
    set i | 0 <= i < |ss| :: ss[i].name
  }

  predicate ServicesShrink(prev: Caveat, cur: Caveat) {
    && DecodedServices(prev.value).Ok? && DecodedServices(cur.value).Ok?
    && Names(cur.value) <= Names(prev.value)
  }

  predicate ServicesAllow(target: string, c: Caveat) {
    DecodedServices(c.value).Ok? && target in Names(c.value)
  }

  /** SatisfyPrevious of the services satisfier. */
  method CheckServicesShrink(prev: Caveat, cur: Caveat) returns (ok: bool)
    ensures ok <==> ServicesShrink(prev, cur)
  {
    var prevServices := DecodeServices(prev.value);
    if prevServices.Err? {
      return false;
    }
    var prevAllowed: set<string> := {};
    for i := 0 to |prevServices.value|
      invariant prevAllowed == set j | 0 <= j < i :: prevServices.value[j].name
    {
      prevAllowed := prevAllowed + {prevServices.value[i].name};
    }
    var currentServices := DecodeServices(cur.value);
    if currentServices.Err? {
      return false;
    }
    for i := 0 to |currentServices.value|
      invariant forall j | 0 <= j < i :: currentServices.value[j].name in prevAllowed
    {
      if currentServices.value[i].name !in prevAllowed {
        assert currentServices.value[i].name in Names(cur.value);
        return false;
      }
    }
    return true;
  }

  /** SatisfyFinal of the services satisfier. */
  method CheckServicesAllow(target: string, c: Caveat) returns (ok: bool)
    ensures ok <==> ServicesAllow(target, c)
  {
    var services := DecodeServices(c.value);
    if services.Err? {
      return false;
    }
    for i := 0 to |services.value|
      invariant forall j | 0 <= j < i :: services.value[j].name != target
    {
      if services.value[i].name == target {
        return true;
      }
    }
    return false;
  }

  function ServicesSatisfier(target: string): Satisfier {
    Satisfier(COND_SERVICES, ServicesShrink, c => ServicesAllow(target, c))
  }

  function Items(s: string): set<string> {
    var parts := Split(s, ',');
    set i | 0 <= i < |parts| :: parts[i]
  }

  /** SatisfyPrevious of the capabilities satisfier. */
  method CheckCapabilitiesShrink(prev: Caveat, cur: Caveat) returns (ok: bool)
    ensures ok <==> Items(cur.value) <= Items(prev.value)
  {
    var prevCapabilities := Split(prev.value, ',');
    var allowed: set<string> := {};
    for i := 0 to |prevCapabilities|
      invariant allowed == set j | 0 <= j < i :: prevCapabilities[j]
    {
      allowed := allowed + {prevCapabilities[i]};
    }
    var currentCapabilities := Split(cur.value, ',');
    for i := 0 to |currentCapabilities|
      invariant forall j | 0 <= j < i :: currentCapabilities[j] in allowed
    {
      if currentCapabilities[i] !in allowed {
        assert currentCapabilities[i] in Items(cur.value);
        return false;
      }
    }
    return true;
  }

  function CapabilitiesSatisfier(service: string, target: string): Satisfier {
    Satisfier(service + CAPABILITIES_SUFFIX,
              (prev: Caveat, cur: Caveat) => Items(cur.value) <= Items(prev.value),
              (c: Caveat) => target in Items(c.value))
  }

  /** time.Unix(sec, 0) counts seconds from year 1 in an int64, so it wraps near the ends of the range. */
  function UnixTime(sec: int): int {
    WrapSigned64(sec + 62_135_596_800)
  }

  predicate TimeoutShrinks(prev: Caveat, cur: Caveat) {
    && ParseInt64(prev.value).Some? && ParseInt64(cur.value).Some?
    && UnixTime(ParseInt64(cur.value).value) <= UnixTime(ParseInt64(prev.value).value)
  }

  /** now().Before(expiration): now is whole seconds since year 1 plus a fraction of one. */
  predicate TimeoutHolds(nowSec: int, c: Caveat) {
    ParseInt64(c.value).Some? && nowSec < UnixTime(ParseInt64(c.value).value)
  }

  function TimeoutSatisfier(service: string, nowSec: int): Satisfier {
    Satisfier(service + TIMEOUT_SUFFIX, TimeoutShrinks, c => TimeoutHolds(nowSec, c))
  }

  /** A satisfier demotes: what the later caveat allows, an earlier one in accordance with it allowed too. */
  ghost predicate Demotes(s: Satisfier) {
    forall prev, cur :: s.satisfyPrevious(prev, cur) && s.satisfyFinal(cur) ==> s.satisfyFinal(prev)
  }

  lemma SatisfiersDemote(service: string, target: string, nowSec: int)
    ensures Demotes(ServicesSatisfier(target))
    ensures Demotes(CapabilitiesSatisfier(service, target))
    ensures Demotes(TimeoutSatisfier(service, nowSec))
  {
    forall prev, cur |
      ServicesSatisfier(target).satisfyPrevious(prev, cur) && ServicesSatisfier(target).satisfyFinal(cur)
      ensures ServicesSatisfier(target).satisfyFinal(prev)
    {
      assert ServicesShrink(prev, cur) && ServicesAllow(target, cur);
      assert ServicesAllow(target, prev);
    }
    forall prev, cur |
      && TimeoutSatisfier(service, nowSec).satisfyPrevious(prev, cur)
      && TimeoutSatisfier(service, nowSec).satisfyFinal(cur)
      ensures TimeoutSatisfier(service, nowSec).satisfyFinal(prev)
    {
      assert TimeoutShrinks(prev, cur) && TimeoutHolds(nowSec, cur);
      assert TimeoutHolds(nowSec, prev);
    }
  }

  // ---------------------------------------------------------------- VerifyCaveats

  /** The caveats of one condition, in order. */
  function Chain(caveats: seq<Caveat>, condition: string): (r: seq<Caveat>)
    ensures forall i | 0 <= i < |r| :: r[i].condition == condition
  {
    if caveats == [] then []
    else
      var n := |caveats| - 1;
      Chain(caveats[..n], condition) + if caveats[n].condition == condition then [caveats[n]] else []
  }

  predicate ChainHolds(s: Satisfier, chain: seq<Caveat>) {
    chain == [] ||
    (&& (forall i | 0 <= i < |chain| - 1 :: s.satisfyPrevious(chain[i], chain[i + 1]))
     && s.satisfyFinal(chain[|chain| - 1]))
  }

  /** The satisfier in force for a condition: a later one replaces an earlier one. */
  function InForce(satisfiers: seq<Satisfier>): (m: map<string, Satisfier>)
    ensures forall c | c in m :: m[c].condition == c
  {
    if satisfiers == [] then map[]
    else
      var n := |satisfiers| - 1;
      InForce(satisfiers[..n])[satisfiers[n].condition := satisfiers[n]]
  }

  ghost predicate Verified(caveats: seq<Caveat>, satisfiers: seq<Satisfier>) {
    var m := InForce(satisfiers);
    forall c | c in m :: ChainHolds(m[c], Chain(caveats, c))
  }

  /** VerifyCaveats: group the relevant caveats by condition, then check each chain pairwise and its last
      element; Go ranges over the groups in any order. */
  method VerifyCaveats(caveats: seq<Caveat>, satisfiers: seq<Satisfier>) returns (ok: bool)
    ensures ok <==> Verified(caveats, satisfiers)
  {
    var inForce: map<string, Satisfier> := map[];
    for i := 0 to |satisfiers|
      invariant inForce == InForce(satisfiers[..i])
    {
      assert satisfiers[..i + 1][..i] == satisfiers[..i];
      inForce := inForce[satisfiers[i].condition := satisfiers[i]];
    }
    assert satisfiers[..|satisfiers|] == satisfiers;
    var relevant := Relevant(caveats, inForce.Keys);
    ok := VerifyGroups(inForce, relevant);
    assert ok <==> forall c | c in inForce :: ChainHolds(inForce[c], Chain(caveats, c)) by {
      forall c | c in inForce
        ensures Chain(caveats, c) == if c in relevant then relevant[c] else []
      {
      }
    }
  }

  /** The caveats of each known condition, in order. */
  ghost predicate Groups(caveats: seq<Caveat>, known: set<string>, relevant: map<string, seq<Caveat>>) {
    && relevant.Keys <= known
    && (forall c | c in relevant :: relevant[c] != [])
    && forall c | c in known :: Chain(caveats, c) == if c in relevant then relevant[c] else []
  }

  method Relevant(caveats: seq<Caveat>, known: set<string>) returns (relevant: map<string, seq<Caveat>>)
    ensures Groups(caveats, known, relevant)
  {
    relevant := map[];
    for i := 0 to |caveats|
      invariant Groups(caveats[..i], known, relevant)
    {
      var caveat := caveats[i];
      GroupsGrow(caveats, i, known, relevant);
      if caveat.condition in known {
        var sofar := if caveat.condition in relevant then relevant[caveat.condition] else [];
        relevant := relevant[caveat.condition := sofar + [caveat]];
      }
    }
    assert caveats[..|caveats|] == caveats;
  }

  lemma GroupsGrow(caveats: seq<Caveat>, i: nat, known: set<string>, relevant: map<string, seq<Caveat>>)
    requires i < |caveats| && Groups(caveats[..i], known, relevant)
    ensures caveats[i].condition !in known ==> Groups(caveats[..i + 1], known, relevant)
    ensures var c := caveats[i].condition;
            c in known ==>
              Groups(caveats[..i + 1], known,
                     relevant[c := (if c in relevant then relevant[c] else []) + [caveats[i]]])
  {
    forall c | c in known
      ensures Chain(caveats[..i + 1], c)
           == Chain(caveats[..i], c) + if caveats[i].condition == c then [caveats[i]] else []
    {
      ChainGrows(caveats, i, c);
    }
  }

  lemma ChainGrows(caveats: seq<Caveat>, i: nat, condition: string)
    requires i < |caveats|
    ensures Chain(caveats[..i + 1], condition)
         == Chain(caveats[..i], condition) + if caveats[i].condition == condition then [caveats[i]] else []
  {
    assert caveats[..i + 1][..i] == caveats[..i];
  }

  method VerifyGroups(inForce: map<string, Satisfier>, relevant: map<string, seq<Caveat>>) returns (ok: bool)
    requires relevant.Keys <= inForce.Keys
    requires forall c | c in relevant :: relevant[c] != []
    ensures ok <==> forall c | c in relevant :: ChainHolds(inForce[c], relevant[c])
  {
    var todo := relevant.Keys;
    while todo != {}
      invariant todo <= relevant.Keys
      invariant forall c | c in relevant && c !in todo :: ChainHolds(inForce[c], relevant[c])
      decreases todo
    {
      var condition :| condition in todo;
      var held := VerifyChain(inForce[condition], relevant[condition]);
      if !held {
        return false;
      }
      todo := todo - {condition};
    }
    return true;
  }

  method VerifyChain(s: Satisfier, chain: seq<Caveat>) returns (ok: bool)
    requires chain != []
    ensures ok <==> ChainHolds(s, chain)
  {
    var i, j := 0, 1;
    while j < |chain|
      invariant j == i + 1 <= |chain|
      invariant forall k | 0 <= k < i :: s.satisfyPrevious(chain[k], chain[k + 1])
    {
      if !s.satisfyPrevious(chain[i], chain[j]) {
        return false;
      }
      i, j := i + 1, j + 1;
    }
    return s.satisfyFinal(chain[|chain| - 1]);
  }

  // ---------------------------------------------------------------- attenuation

  lemma {:induction false} ChainConcat(a: seq<Caveat>, b: seq<Caveat>, condition: string)
    ensures Chain(a + b, condition) == Chain(a, condition) + Chain(b, condition)
  {
    if b == [] {
      assert a + b == a;
    } else {
      var n := |b| - 1;
      assert (a + b)[..|a| + n] == a + b[..n];
      ChainConcat(a, b[..n], condition);
    }
  }

  /** In an accepted chain of a demoting satisfier every caveat, not only the last, is satisfied. */
  lemma {:induction false} EveryLinkHolds(s: Satisfier, chain: seq<Caveat>, k: nat)
    requires Demotes(s) && ChainHolds(s, chain) && k < |chain|
    ensures s.satisfyFinal(chain[k])
    decreases |chain| - k
  {
    if k < |chain| - 1 {
      EveryLinkHolds(s, chain, k + 1);
      assert s.satisfyPrevious(chain[k], chain[k + 1]);
    }
  }

  lemma PrefixHolds(s: Satisfier, a: seq<Caveat>, b: seq<Caveat>)
    requires Demotes(s) && ChainHolds(s, a + b)
    ensures ChainHolds(s, a)
  {
    if a != [] {
      EveryLinkHolds(s, a + b, |a| - 1);
      forall i | 0 <= i < |a| - 1 ensures s.satisfyPrevious(a[i], a[i + 1]) {
        assert (a + b)[i] == a[i] && (a + b)[i + 1] == a[i + 1];
      }
    }
  }

  /** Whoever accepts a list of caveats with more appended accepts the list itself. */
  lemma Attenuation(caveats: seq<Caveat>, more: seq<Caveat>, satisfiers: seq<Satisfier>)
    requires forall i | 0 <= i < |satisfiers| :: Demotes(satisfiers[i])
    requires Verified(caveats + more, satisfiers)
    ensures Verified(caveats, satisfiers)
  {
    var m := InForce(satisfiers);
    forall c | c in m ensures ChainHolds(m[c], Chain(caveats, c)) {
      ChainConcat(caveats, more, c);
      InForceDemotes(satisfiers, c);
      PrefixHolds(m[c], Chain(caveats, c), Chain(more, c));
    }
  }

  lemma {:induction false} InForceDemotes(satisfiers: seq<Satisfier>, c: string)
    requires forall i | 0 <= i < |satisfiers| :: Demotes(satisfiers[i])
    requires c in InForce(satisfiers)
    ensures Demotes(InForce(satisfiers)[c])
  {
    var n := |satisfiers| - 1;
    if satisfiers[n].condition != c {
      InForceDemotes(satisfiers[..n], c);
    }
  }

  /** The two satisfiers VerifyL402 passes. */
  function TokenSatisfiers(target: string, nowSec: int): seq<Satisfier> {
    [ServicesSatisfier(target), TimeoutSatisfier(target, nowSec)]
  }

  lemma TokenConditionsDiffer(target: string)
    ensures target + TIMEOUT_SUFFIX != COND_SERVICES
  {
    var t := target + TIMEOUT_SUFFIX;
    assert t[|t| - 1] == TIMEOUT_SUFFIX[|TIMEOUT_SUFFIX| - 1] == 'l';
    assert COND_SERVICES[|COND_SERVICES| - 1] == 's';
  }

  /** The two chains decide, and they decide independently. */
  lemma TokenVerifiedIff(caveats: seq<Caveat>, target: string, nowSec: int)
    ensures Verified(caveats, TokenSatisfiers(target, nowSec))
       <==> && ChainHolds(ServicesSatisfier(target), Chain(caveats, COND_SERVICES))
            && ChainHolds(TimeoutSatisfier(target, nowSec), Chain(caveats, target + TIMEOUT_SUFFIX))
  {
    TokenConditionsDiffer(target);
    var ss := TokenSatisfiers(target, nowSec);
    assert ss[..1] == [ss[0]] && [ss[0]][..0] == [];
    assert InForce(ss[..1]) == map[][COND_SERVICES := ss[0]];
    var m := InForce(ss);
    assert m == InForce(ss[..1])[target + TIMEOUT_SUFFIX := ss[1]];
    assert COND_SERVICES in m && target + TIMEOUT_SUFFIX in m;
  }

  /** In an accepted list every services caveat names the target and every timeout for it is still ahead. */
  lemma AcceptedChain(caveats: seq<Caveat>, target: string, nowSec: int, k: nat)
    requires Verified(caveats, TokenSatisfiers(target, nowSec)) && k < |caveats|
    ensures caveats[k].condition == COND_SERVICES ==> ServicesAllow(target, caveats[k])
    ensures caveats[k].condition == target + TIMEOUT_SUFFIX ==> TimeoutHolds(nowSec, caveats[k])
  {
    TokenVerifiedIff(caveats, target, nowSec);
    SatisfiersDemote(target, target, nowSec);
    if caveats[k].condition == COND_SERVICES {
      LinkOf(caveats, k, ServicesSatisfier(target));
    }
    if caveats[k].condition == target + TIMEOUT_SUFFIX {
      LinkOf(caveats, k, TimeoutSatisfier(target, nowSec));
    }
  }

  lemma {:induction false} ChainIndex(caveats: seq<Caveat>, k: nat) returns (n: nat)
    requires k < |caveats|
    ensures n < |Chain(caveats, caveats[k].condition)|
    ensures Chain(caveats, caveats[k].condition)[n] == caveats[k]
  {
    var last := |caveats| - 1;
    if k == last {
      n := |Chain(caveats[..last], caveats[k].condition)|;
    } else {
      n := ChainIndex(caveats[..last], k);
    }
  }

  lemma LinkOf(caveats: seq<Caveat>, k: nat, s: Satisfier)
    requires k < |caveats| && caveats[k].condition == s.condition && Demotes(s)
    requires ChainHolds(s, Chain(caveats, s.condition))
    ensures s.satisfyFinal(caveats[k])
  {
    var n := ChainIndex(caveats, k);
    EveryLinkHolds(s, Chain(caveats, s.condition), n);
  }

  // ---------------------------------------------------------------- the conditions in numbers and names

  /** From 1970 to the last second whose count from year 1 fits an int64. */
  predicate Sensible(sec: int) {
    0 <= sec && sec + 62_135_596_800 < TWO_63
  }

  /** A timeout holds exactly while the clock, in Unix seconds, is before the number it gives. */
  lemma TimeoutHoldsIff(now: int, c: Caveat)
    requires Sensible(now)
    ensures TimeoutHolds(UnixTime(now), c) <==>
              && ParseInt64(c.value).Some? && now < ParseInt64(c.value).value && Sensible(ParseInt64(c.value).value)
  {
    if ParseInt64(c.value).Some? {
      LaterSecond(now, ParseInt64(c.value).value);
    }
  }

  lemma LaterSecond(now: int, t: int)
    requires Sensible(now) && -TWO_63 <= t < TWO_63
    ensures UnixTime(now) < UnixTime(t) <==> now < t && Sensible(t)
  {
    if t + 62_135_596_800 >= TWO_63 {
      assert WrapSigned64(t + 62_135_596_800) < 62_135_596_800 - TWO_63;
    }
  }

  /** One timeout may follow another exactly if its number is not larger. */
  lemma TimeoutShrinksIff(prev: Caveat, cur: Caveat, p: int, t: int)
    requires ParseInt64(prev.value) == Some(p) && ParseInt64(cur.value) == Some(t) && Sensible(p) && Sensible(t)
    ensures TimeoutShrinks(prev, cur) <==> t <= p
  {
  }

  /** In an accepted list every timeout for the target gives a number that the clock has not reached. */
  lemma AcceptedTimeouts(caveats: seq<Caveat>, target: string, now: int, k: nat)
    requires Sensible(now) && Verified(caveats, TokenSatisfiers(target, UnixTime(now)))
    requires k < |caveats| && caveats[k].condition == target + "_valid_until"
    ensures ParseInt64(caveats[k].value).Some? && now < ParseInt64(caveats[k].value).value
  {
    AcceptedChain(caveats, target, UnixTime(now), k);
    TimeoutHoldsIff(now, caveats[k]);
  }

  /** So a timeout that gives no number, or one the clock has reached, spoils the list. */
  lemma SpentTimeout(caveats: seq<Caveat>, target: string, now: int, k: nat)
    requires Sensible(now) && k < |caveats| && caveats[k].condition == target + "_valid_until"
    requires ParseInt64(caveats[k].value).None? || ParseInt64(caveats[k].value).value <= now
    ensures !Verified(caveats, TokenSatisfiers(target, UnixTime(now)))
  {
    if Verified(caveats, TokenSatisfiers(target, UnixTime(now))) {
      AcceptedTimeouts(caveats, target, now, k);
    }
  }

  /** And every services caveat lists the target. */
  lemma AcceptedServices(caveats: seq<Caveat>, target: string, nowSec: int, k: nat) returns (j: nat)
    requires Verified(caveats, TokenSatisfiers(target, nowSec)) && k < |caveats| && caveats[k].condition == "services"
    ensures DecodedServices(caveats[k].value).Ok?
    ensures j < |DecodedServices(caveats[k].value).value| && DecodedServices(caveats[k].value).value[j].name == target
  {
    AcceptedChain(caveats, target, nowSec, k);
    var listed := DecodedServices(caveats[k].value).value;
    j :| 0 <= j < |listed| && listed[j].name == target;
  }

  /** With the capabilities satisfier alone: every capabilities caveat of the service lists the target between
      commas. */
  lemma AcceptedCapabilities(caveats: seq<Caveat>, service: string, target: string, k: nat)
    requires Verified(caveats, [CapabilitiesSatisfier(service, target)])
    requires k < |caveats| && caveats[k].condition == service + "_capabilities"
    ensures target in Split(caveats[k].value, ',')
  {
    var s := CapabilitiesSatisfier(service, target);
    assert [s][..0] == [];
    assert InForce([s]) == map[s.condition := s];
    assert s.condition in InForce([s]);
    SatisfiersDemote(service, target, 0);
    LinkOf(caveats, k, s);
  }

  /** And of two such caveats: the second lists nothing new, and the target. */
  lemma CapabilitiesPair(service: string, target: string, a: Caveat, b: Caveat)
    requires a.condition == b.condition == service + "_capabilities"
    ensures Verified([a, b], [CapabilitiesSatisfier(service, target)]) <==>
              && (forall c | c in Split(b.value, ',') :: c in Split(a.value, ',')) && target in Split(b.value, ',')
  {
    var s := CapabilitiesSatisfier(service, target);
    assert [s][..0] == [];
    assert InForce([s]) == map[s.condition := s];
    PairChain(a, b, s.condition);
    assert s.condition in InForce([s]);
    ItemsAre(a.value);
    ItemsAre(b.value);
  }

  lemma PairChain(a: Caveat, b: Caveat, condition: string)
    requires a.condition == b.condition == condition
    ensures Chain([a, b], condition) == [a, b]
  {
    assert [a, b][..1] == [a] && [a][..0] == [];
    assert Chain([], condition) == [];
    assert Chain([a], condition) == Chain([], condition) + [a];
    assert Chain([a, b], condition) == Chain([a], condition) + [b];
  }

  lemma ItemsAre(s: string)
    ensures forall c :: c in Items(s) <==> c in Split(s, ',')
  {
  }

  /** A services caveat may follow another exactly if it names no service the other does not. */
  lemma NarrowerServices(prev: seq<Service>, cur: seq<Service>)
    requires EncodedServices(prev).Ok? && EncodedServices(cur).Ok? && DelimiterFree(prev) && DelimiterFree(cur)
    ensures ServicesShrink(Caveat("services", EncodedServices(prev).value),
                           Caveat("services", EncodedServices(cur).value))
       <==> forall i | 0 <= i < |cur| :: exists j :: 0 <= j < |prev| && prev[j].name == cur[i].name
  {
    NamesOf(prev);
    NamesOf(cur);
    var ps, cs := Names(EncodedServices(prev).value), Names(EncodedServices(cur).value);
    if cs <= ps {
      forall i | 0 <= i < |cur| ensures exists j :: 0 <= j < |prev| && prev[j].name == cur[i].name {
        assert cur[i].name in cs;
      }
    }
  }

  lemma NamesOf(ss: seq<Service>)
    requires EncodedServices(ss).Ok? && DelimiterFree(ss)
    ensures DecodedServices(EncodedServices(ss).value).Ok?
    ensures Names(EncodedServices(ss).value) == set i | 0 <= i < |ss| :: ss[i].name
  {
    ServicesRoundTrip(ss);
    var bare := Bare(ss);
    assert forall i | 0 <= i < |ss| :: bare[i].name == ss[i].name;
  }

  /** Of several satisfiers for one condition the last is in force. */
  lemma {:induction false} LastInForce(satisfiers: seq<Satisfier>, i: nat)
    requires i < |satisfiers|
    requires forall j | i < j < |satisfiers| :: satisfiers[j].condition != satisfiers[i].condition
    ensures satisfiers[i].condition in InForce(satisfiers)
    ensures InForce(satisfiers)[satisfiers[i].condition] == satisfiers[i]
  {
    if i < |satisfiers| - 1 {
      LastInForce(satisfiers[..|satisfiers| - 1], i);
    }
  }
}
