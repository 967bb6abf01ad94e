/** The invoice the relay offers in place of the creator's one: Relay.wrap, with Go's uint64
    arithmetic written out. DecodeInvoice, EstimateRoutingFee and the two clock readings are inputs. */
module RelayWrap {
  import opened Words
  import Hex

  datatype RelayParameters = RelayParameters(
    minAmountMsat: uint64, maxAmountMsat: uint64, minFeeBudgetMsat: uint64,
    routingFeeBaseMsat: uint64, routingFeePPM: uint64,
    expiryBuffer: uint64, maxExpiry: uint64,
    cltvDeltaAlpha: uint64, cltvDeltaBeta: uint64,
    routingBudgetAlpha: uint64, routingBudgetBeta: uint64,
    maxCltvExpiry: uint64, minCltvExpiry: uint64)

  /** NewRelay. */
  const DEFAULTS: RelayParameters := RelayParameters(
    10_000, 1_000_000_000, 1000, 1000, 1000, 300, 604800, 42, 42, 1000, 1_500_000, 1800, 200)

  /** The fields of a decoded BOLT #11 invoice that wrap looks at. */
  datatype PayReq = PayReq(numMsat: uint64, timestamp: uint64, expiry: uint64, features: set<string>,
                           paymentHash: string, description: string, descriptionHash: string)

  datatype ProxyParameters = ProxyParameters(
    routingMsat: Option<uint64>, description: Option<string>, descriptionHash: Option<string>)

  /** What wrap asks of its environment, in the order it asks. */
  datatype Inputs = Inputs(decoded: Option<PayReq>, x: ProxyParameters,
                           estimate: Option<(uint64, uint64)>, now1: uint64, now2: uint64)

  datatype InvoiceParameters = InvoiceParameters(
    hash: Bytes, memo: string, descriptionHash: Bytes,
    expiry: uint64, cltvExpiry: uint64, valueMsat: uint64)

  datatype Wrapped = Wrapped(q: InvoiceParameters, feeBudgetMsat: uint64)

  datatype WrapError =
    | NotDecoded | ZeroAmount | AmountTooLow | AmountTooHigh | NoRoute | UnknownFeature | BadPaymentHash
    | BothDescriptions | BadDescriptionHash | ExpiresTooSoon | CltvTooLong | FeeBudgetTooLow

  const KNOWN_FEATURES: set<string> :=
    {"8", "9", "14", "15", "16", "17", "25", "48", "49", "149", "151"}

  /** Memo and description hash of the wrapped invoice. */
  function Describe(x: ProxyParameters, p: PayReq): Result<(string, Bytes), WrapError> {
    if x.description.Some? && x.descriptionHash.Some? then Err(BothDescriptions)
    else if x.description.Some? then Ok((x.description.value, []))
    else if x.descriptionHash.Some? then FromHex(x.descriptionHash.value)
    else if p.descriptionHash != "" then FromHex(p.descriptionHash)
    else Ok((p.description, []))
  }

  function FromHex(s: string): Result<(string, Bytes), WrapError> {
    match Hex.Decode(s)
    case None => Err(BadDescriptionHash)
    case Some(b) => Ok(("", b))
  }

  function RoutingFee64(rp: RelayParameters, numMsat: uint64): uint64 {
    Wrap64(rp.routingFeeBaseMsat + Wrap64(numMsat * rp.routingFeePPM) / 1_000_000)
  }

  function FeeBudget64(rp: RelayParameters, minFee: uint64): uint64 {
    Wrap64(minFee + rp.routingBudgetAlpha + Wrap64(minFee * rp.routingBudgetBeta) / 1_000_000)
  }

  function PerMillion(x: nat): nat {
    x / 1_000_000
  }

  /** The two fee terms in unbounded arithmetic. */
  function RoutingFee(rp: RelayParameters, numMsat: uint64): nat {
    rp.routingFeeBaseMsat + PerMillion(numMsat * rp.routingFeePPM)
  }

  function FeeBudget(rp: RelayParameters, minFee: uint64): nat {
    minFee + rp.routingBudgetAlpha + PerMillion(minFee * rp.routingBudgetBeta)
  }

  function Cltv64(rp: RelayParameters, minCltv: uint64): uint64 {
    Wrap64(minCltv + rp.cltvDeltaBeta + rp.cltvDeltaAlpha)
  }

  function Min(a: int, b: int): int {
    if a < b then a else b
  }

  function AtLeast(x: uint64, least: uint64): uint64 {
    if x < least then least else x
  }

  function Expiry64(rp: RelayParameters, p: PayReq, now: uint64): uint64 {
    Wrap64(p.timestamp + Min(p.expiry, rp.maxExpiry) - now - rp.expiryBuffer)
  }

  /** The value of the wrapped invoice and the budget left for routing the original. */
  function Quote(minBudget: uint64, num: uint64, fee: uint64, budget: uint64, offer: Option<uint64>)
    : Result<(uint64, uint64), WrapError>
  {
    if offer.Some? then
      if offer.value < Wrap64(minBudget + fee) then Err(FeeBudgetTooLow)
      else Ok((Wrap64(num + offer.value), Wrap64(offer.value - fee)))
    else Ok((Wrap64(num + budget + fee), budget))
  }

  function Wrap(rp: RelayParameters, i: Inputs): Result<Wrapped, WrapError> {
    if i.decoded.None? then Err(NotDecoded) else
    var p := i.decoded.value;
    if p.numMsat == 0 then Err(ZeroAmount) else
    if p.numMsat < rp.minAmountMsat then Err(AmountTooLow) else
    if p.numMsat > rp.maxAmountMsat then Err(AmountTooHigh) else
    if i.estimate.None? then Err(NoRoute) else
    var (minFee, minCltv) := i.estimate.value;
    if !(p.features <= KNOWN_FEATURES) then Err(UnknownFeature) else
    var hash := Hex.Decode(p.paymentHash);
    if hash.None? then Err(BadPaymentHash) else
    match Describe(i.x, p)
    case Err(e) => Err(e)
    case Ok((memo, descriptionHash)) =>
      if Wrap64(p.timestamp + p.expiry) < Wrap64(i.now1 + rp.expiryBuffer) then Err(ExpiresTooSoon) else
      var expiry := Expiry64(rp, p, i.now2);
      var cltv := Cltv64(rp, minCltv);
      if cltv >= rp.maxCltvExpiry then Err(CltvTooLong) else
      var cltvExpiry := AtLeast(cltv, rp.minCltvExpiry);
      match Quote(rp.minFeeBudgetMsat, p.numMsat, RoutingFee64(rp, p.numMsat), FeeBudget64(rp, minFee),
                  i.x.routingMsat)
      case Err(e) => Err(e)
      case Ok((value, budget)) =>
        Ok(Wrapped(InvoiceParameters(hash.value, memo, descriptionHash, expiry, cltvExpiry, value), budget))
  }

  // ---------------------------------------------------------------- what is relayed

  predicate IsHex(s: string) {
    |s| % 2 == 0 && forall j | 0 <= j < |s| :: Hex.IsHexDigit(s[j])
  }

  /** The two descriptions are not both given, and a description hash that is used is hexadecimal. */
  predicate Describable(x: ProxyParameters, p: PayReq) {
    match (x.description, x.descriptionHash)
    case (Some(_), Some(_)) => false
    case (Some(_), None) => true
    case (None, Some(h)) => IsHex(h)
    case (None, None) => IsHex(p.descriptionHash)
  }

  /** The invoices wrap agrees to relay. */
  predicate Relayable(rp: RelayParameters, i: Inputs) {
    && i.decoded.Some? && i.estimate.Some?
    && var p := i.decoded.value;
    && 0 < p.numMsat && rp.minAmountMsat <= p.numMsat <= rp.maxAmountMsat
    && p.features <= {"8", "9", "14", "15", "16", "17", "25", "48", "49", "149", "151"}
    && IsHex(p.paymentHash) && Describable(i.x, p)
    && (i.now1 + rp.expiryBuffer) % TWO_64 <= (p.timestamp + p.expiry) % TWO_64
    && (i.estimate.value.1 + rp.cltvDeltaBeta + rp.cltvDeltaAlpha) % TWO_64 < rp.maxCltvExpiry
    && (i.x.routingMsat.Some? ==> (rp.minFeeBudgetMsat + RoutingFee64(rp, p.numMsat)) % TWO_64 <= i.x.routingMsat.value)
  }

  lemma DescribeIff(x: ProxyParameters, p: PayReq)
    ensures Describe(x, p).Ok? <==> Describable(x, p)
  {
    if x.descriptionHash.Some? { Hex.DecodesIff(x.descriptionHash.value); }
    Hex.DecodesIff(p.descriptionHash);
  }

  lemma QuoteIff(minBudget: uint64, num: uint64, fee: uint64, budget: uint64, offer: Option<uint64>)
    ensures Quote(minBudget, num, fee, budget, offer).Ok? <==>
              (offer.Some? ==> (minBudget + fee) % TWO_64 <= offer.value)
  {
  }

  /** The checks one after the other. */
  predicate Passes(rp: RelayParameters, i: Inputs) {
    && i.decoded.Some? && i.estimate.Some?
    && var p := i.decoded.value;
    && p.numMsat != 0 && rp.minAmountMsat <= p.numMsat <= rp.maxAmountMsat
    && p.features <= KNOWN_FEATURES && Hex.Decode(p.paymentHash).Some? && Describe(i.x, p).Ok?
    && Wrap64(i.now1 + rp.expiryBuffer) <= Wrap64(p.timestamp + p.expiry)
    && Cltv64(rp, i.estimate.value.1) < rp.maxCltvExpiry
    && Quote(rp.minFeeBudgetMsat, p.numMsat, RoutingFee64(rp, p.numMsat), FeeBudget64(rp, i.estimate.value.0),
             i.x.routingMsat).Ok?
  }

  lemma WrapPasses(rp: RelayParameters, i: Inputs)
    ensures Wrap(rp, i).Ok? <==> Passes(rp, i)
  {
  }

  lemma PassesIff(rp: RelayParameters, i: Inputs)
    ensures Passes(rp, i) <==> Relayable(rp, i)
  {
    if i.decoded.Some? && i.estimate.Some? {
      var p := i.decoded.value;
      Hex.DecodesIff(p.paymentHash);
      DescribeIff(i.x, p);
      QuoteIff(rp.minFeeBudgetMsat, p.numMsat, RoutingFee64(rp, p.numMsat), FeeBudget64(rp, i.estimate.value.0),
               i.x.routingMsat);
    }
  }

  /** wrap accepts exactly the relayable invoices. */
  lemma WrapAccepts(rp: RelayParameters, i: Inputs)
    ensures Wrap(rp, i).Ok? <==> Relayable(rp, i)
  {
    WrapPasses(rp, i);
    PassesIff(rp, i);
  }

  /** With the default parameters, in numbers. */
  predicate RelayableByDefault(i: Inputs)
    requires i.decoded.Some? && i.estimate.Some?
  {
    var p := i.decoded.value;
    && 10_000 <= p.numMsat <= 1_000_000_000 && i.estimate.value.1 + 84 < 1800
    && p.features <= {"8", "9", "14", "15", "16", "17", "25", "48", "49", "149", "151"}
    && IsHex(p.paymentHash) && Describable(i.x, p) && i.now1 + 300 <= p.timestamp + p.expiry
    && (i.x.routingMsat.Some? ==> 2000 + p.numMsat / 1000 <= i.x.routingMsat.value)
  }

  lemma DefaultFloor(num: uint64)
    requires num <= 1_000_000_000
    ensures (DEFAULTS.minFeeBudgetMsat + RoutingFee64(DEFAULTS, num)) % TWO_64 == 2000 + num / 1000
  {
    DefaultTerms(num, 0);
    WrapSmall(2000 + num / 1000);
  }

  /** As long as neither the ends of the two time spans nor the route's delta overflow. */
  lemma DefaultAccepts(i: Inputs)
    requires i.decoded.Some? && i.estimate.Some? && i.estimate.value.1 + 84 < TWO_64
    requires i.decoded.value.timestamp + i.decoded.value.expiry < TWO_64 && i.now1 + 300 < TWO_64
    ensures Wrap(DEFAULTS, i).Ok? <==> RelayableByDefault(i)
  {
    WrapAccepts(DEFAULTS, i);
    DefaultRelayable(i);
  }

  lemma DefaultRelayable(i: Inputs)
    requires i.decoded.Some? && i.estimate.Some? && i.estimate.value.1 + 84 < TWO_64
    requires i.decoded.value.timestamp + i.decoded.value.expiry < TWO_64 && i.now1 + 300 < TWO_64
    ensures Relayable(DEFAULTS, i) <==> RelayableByDefault(i)
  {
    WrapSmall(i.decoded.value.timestamp + i.decoded.value.expiry);
    WrapSmall(i.now1 + 300);
    WrapSmall(i.estimate.value.1 + 84);
    if i.decoded.value.numMsat <= 1_000_000_000 {
      DefaultFloor(i.decoded.value.numMsat);
    }
  }

  /** What comes out besides the quote: the hash asked for, the memo and description hash of the five cases,
      and the larger of the route's CLTV delta and the least one. */
  lemma WrapTerms(rp: RelayParameters, i: Inputs, w: Wrapped)
    requires Quoted(rp, i, w)
    ensures i.decoded.Some? && i.estimate.Some? && Hex.Decode(i.decoded.value.paymentHash) == Some(w.q.hash)
    ensures i.x.description.Some? ==> w.q.memo == i.x.description.value && w.q.descriptionHash == []
    ensures i.x.description.None? && i.x.descriptionHash.Some? ==>
              w.q.memo == "" && Hex.Decode(i.x.descriptionHash.value) == Some(w.q.descriptionHash)
    ensures i.x.description.None? && i.x.descriptionHash.None? && i.decoded.value.descriptionHash != "" ==>
              w.q.memo == "" && Hex.Decode(i.decoded.value.descriptionHash) == Some(w.q.descriptionHash)
    ensures i.x.description.None? && i.x.descriptionHash.None? && i.decoded.value.descriptionHash == "" ==>
              w.q.memo == i.decoded.value.description && w.q.descriptionHash == []
    ensures var delta := (i.estimate.value.1 + rp.cltvDeltaBeta + rp.cltvDeltaAlpha) % TWO_64;
            w.q.cltvExpiry == if delta < rp.minCltvExpiry then rp.minCltvExpiry else delta
  {
  }

  // ---------------------------------------------------------------- amounts

  /** The terms a wrapped invoice was quoted on. */
  ghost predicate Quoted(rp: RelayParameters, i: Inputs, w: Wrapped) {
    Wrap(rp, i) == Ok(w)
  }

  lemma WrapSum(x: nat)
    ensures Wrap64(x) <= x && (Wrap64(x) == x <==> x < TWO_64)
  {
  }

  /** A uint64 fee term base + scaled/1e6 whose product may wrap before the division and whose sum may wrap
      after it. */
  lemma ScaledTerm(base: nat, scaled: nat)
    ensures var t := Wrap64(base + Wrap64(scaled) / 1_000_000);
            && t <= base + scaled / 1_000_000
            && (t == base + scaled / 1_000_000 <==> scaled < TWO_64 && base + scaled / 1_000_000 < TWO_64)
  {
    WrapSum(scaled);
    WrapSum(base + Wrap64(scaled) / 1_000_000);
    if scaled >= TWO_64 {
      assert Wrap64(scaled) <= scaled - TWO_64;
    }
  }

  /** The routing fee is the unbounded one exactly when neither its product nor its sum wraps; otherwise it
      is smaller. */
  predicate FeeFits(rp: RelayParameters, numMsat: uint64) {
    numMsat * rp.routingFeePPM < TWO_64 && RoutingFee(rp, numMsat) < TWO_64
  }

  predicate BudgetFits(rp: RelayParameters, minFee: uint64) {
    minFee * rp.routingBudgetBeta < TWO_64 && FeeBudget(rp, minFee) < TWO_64
  }

  lemma FeeTerms(rp: RelayParameters, numMsat: uint64, minFee: uint64)
    ensures RoutingFee64(rp, numMsat) <= RoutingFee(rp, numMsat)
    ensures RoutingFee64(rp, numMsat) == RoutingFee(rp, numMsat) <==> FeeFits(rp, numMsat)
    ensures FeeBudget64(rp, minFee) <= FeeBudget(rp, minFee)
    ensures FeeBudget64(rp, minFee) == FeeBudget(rp, minFee) <==> BudgetFits(rp, minFee)
  {
    ScaledTerm(rp.routingFeeBaseMsat, numMsat * rp.routingFeePPM);
    ScaledTerm(minFee + rp.routingBudgetAlpha, minFee * rp.routingBudgetBeta);
  }

  lemma WrapDifference(a: uint64, b: uint64)
    ensures Wrap64(a - b) == if b <= a then a - b else a - b + TWO_64
  {
  }

  lemma WrapTwice(x: nat)
    ensures Wrap64(x + TWO_64) == Wrap64(x)
  {
  }

  lemma QuoteSum(minBudget: uint64, num: uint64, fee: uint64, budget: uint64, offer: Option<uint64>)
    requires Quote(minBudget, num, fee, budget, offer).Ok?
    ensures var (value, left) := Quote(minBudget, num, fee, budget, offer).value;
            && value == Wrap64(num + left + fee)
            && (offer.None? ==> left == budget)
            && (offer.Some? ==> left == (if fee <= offer.value then offer.value - fee else offer.value - fee + TWO_64))
            && (offer.Some? && minBudget + fee < TWO_64 ==> minBudget + fee <= offer.value)
  {
    if offer.Some? {
      WrapDifference(offer.value, fee);
      WrapTwice(num + offer.value);
      WrapSum(minBudget + fee);
    }
  }

  /** The terms of a quote, taken out of wrap. */
  lemma QuoteTerms(rp: RelayParameters, i: Inputs, w: Wrapped)
    requires Quoted(rp, i, w)
    ensures i.decoded.Some? && i.estimate.Some?
    ensures var p := i.decoded.value;
            && rp.minAmountMsat <= p.numMsat <= rp.maxAmountMsat
            && Quote(rp.minFeeBudgetMsat, p.numMsat, RoutingFee64(rp, p.numMsat),
                     FeeBudget64(rp, i.estimate.value.0), i.x.routingMsat)
               == Ok((w.q.valueMsat, w.feeBudgetMsat))
            && w.q.expiry == Expiry64(rp, p, i.now2)
            && w.q.cltvExpiry == AtLeast(Cltv64(rp, i.estimate.value.1), rp.minCltvExpiry)
            && Wrap64(p.timestamp + p.expiry) >= Wrap64(i.now1 + rp.expiryBuffer)
            && Hex.Decode(p.paymentHash) == Some(w.q.hash)
  {
  }

  /** Both fee branches quote amount + fee budget + routing fee, modulo 2^64; the quote is the true sum
      exactly when that sum fits in 64 bits. A custom fee leaves at least MinFeeBudgetMsat for routing
      unless the guard's own sum wraps. */
  lemma QuoteConserved(rp: RelayParameters, i: Inputs, w: Wrapped)
    requires Quoted(rp, i, w)
    ensures var num := i.decoded.value.numMsat;
            var fee := RoutingFee64(rp, num);
            && w.q.valueMsat == Wrap64(num + w.feeBudgetMsat + fee)
            && (w.q.valueMsat == num + w.feeBudgetMsat + fee <==> num + w.feeBudgetMsat + fee < TWO_64)
            && (i.x.routingMsat.Some? && rp.minFeeBudgetMsat + fee < TWO_64 ==>
                  w.feeBudgetMsat == i.x.routingMsat.value - fee >= rp.minFeeBudgetMsat)
  {
    QuoteTerms(rp, i, w);
    var num := i.decoded.value.numMsat;
    var fee := RoutingFee64(rp, num);
    QuoteSum(rp.minFeeBudgetMsat, num, fee, FeeBudget64(rp, i.estimate.value.0), i.x.routingMsat);
    WrapSum(num + w.feeBudgetMsat + fee);
  }

  /** What the relay takes in covers what it may pay out and its routing fee: a condition on the amount, the
      offer and the route estimate alone. */
  predicate Funded(rp: RelayParameters, i: Inputs) {
    && i.decoded.Some? && i.estimate.Some? && FeeFits(rp, i.decoded.value.numMsat)
    && var num := i.decoded.value.numMsat;
       match i.x.routingMsat
       case Some(offer) => RoutingFee(rp, num) <= offer && num + offer < TWO_64
       case None => num + FeeBudget64(rp, i.estimate.value.0) + RoutingFee(rp, num) < TWO_64
  }

  /** The value quoted never exceeds amount + budget + true routing fee, and equals it exactly for funded
      inputs. */
  lemma QuoteFunded(rp: RelayParameters, i: Inputs, w: Wrapped)
    requires Quoted(rp, i, w)
    ensures var due := i.decoded.value.numMsat + w.feeBudgetMsat + RoutingFee(rp, i.decoded.value.numMsat);
            w.q.valueMsat <= due && (w.q.valueMsat == due <==> Funded(rp, i))
  {
    QuoteTerms(rp, i, w);
    var num := i.decoded.value.numMsat;
    var fee := RoutingFee64(rp, num);
    FeeTerms(rp, num, i.estimate.value.0);
    QuoteSum(rp.minFeeBudgetMsat, num, fee, FeeBudget64(rp, i.estimate.value.0), i.x.routingMsat);
    WrapSum(num + w.feeBudgetMsat + fee);
  }

  /** For any parameters: every uint64 term of a quote is the unbounded-integer one exactly when the input is
      funded and, without a custom offer, the budget term itself does not wrap. */
  lemma QuoteExact(rp: RelayParameters, i: Inputs, w: Wrapped)
    requires Quoted(rp, i, w)
    ensures var num, minFee := i.decoded.value.numMsat, i.estimate.value.0;
            var budget := if i.x.routingMsat.Some? then i.x.routingMsat.value - RoutingFee(rp, num)
                          else FeeBudget(rp, minFee);
            (&& RoutingFee64(rp, num) == RoutingFee(rp, num) && w.feeBudgetMsat == budget
             && w.q.valueMsat == num + budget + RoutingFee(rp, num))
            <==> Funded(rp, i) && (i.x.routingMsat.None? ==> BudgetFits(rp, minFee))
  {
    QuoteTerms(rp, i, w);
    var num := i.decoded.value.numMsat;
    FeeTerms(rp, num, i.estimate.value.0);
    QuoteFunded(rp, i, w);
    QuoteSum(rp.minFeeBudgetMsat, num, RoutingFee64(rp, num), FeeBudget64(rp, i.estimate.value.0), i.x.routingMsat);
  }

  lemma DefaultTerms(num: uint64, minFee: uint64)
    ensures RoutingFee(DEFAULTS, num) == 1000 + num / 1000
    ensures FeeBudget(DEFAULTS, minFee) == 1000 + minFee + minFee * 3 / 2
    ensures num <= 1_000_000_000 ==> RoutingFee64(DEFAULTS, num) == 1000 + num / 1000
    ensures minFee <= 1_000_000_000_000 ==> FeeBudget64(DEFAULTS, minFee) == 1000 + minFee + minFee * 3 / 2
  {
    FeeTerms(DEFAULTS, num, minFee);
  }

  /** With the default parameters an input is funded exactly when its offer is below 2^64 minus the amount;
      without an offer, whenever the estimated route fee is at most 10^12 msat. */
  lemma DefaultFunded(i: Inputs, w: Wrapped)
    requires Quoted(DEFAULTS, i, w)
    ensures i.x.routingMsat.Some? ==>
              (Funded(DEFAULTS, i) <==> i.decoded.value.numMsat + i.x.routingMsat.value < TWO_64)
    ensures i.x.routingMsat.None? && i.estimate.value.0 <= 1_000_000_000_000 ==> Funded(DEFAULTS, i)
  {
    QuoteTerms(DEFAULTS, i, w);
    var num := i.decoded.value.numMsat;
    DefaultTerms(num, i.estimate.value.0);
    QuoteSum(1000, num, RoutingFee64(DEFAULTS, num), FeeBudget64(DEFAULTS, i.estimate.value.0), i.x.routingMsat);
  }

  /** An invoice over 10 000 satoshis for which a route of 100 blocks is known. */
  function PlainInvoice(hash: Bytes, timestamp: uint64, expiry: uint64, now: uint64, offer: Option<uint64>): Inputs {
    Inputs(Some(PayReq(10_000_000, timestamp, expiry, {}, Hex.Encode(hash), "", "")),
           ProxyParameters(offer, None, None), Some((0, 100)), now, now)
  }

  /** What wrap makes of it: everything but quote and expiry is settled. */
  lemma PlainWraps(hash: Bytes, timestamp: uint64, expiry: uint64, now: uint64, offer: Option<uint64>)
    requires now + 300 <= timestamp + expiry < TWO_64
    ensures var i := PlainInvoice(hash, timestamp, expiry, now, offer);
            var left := Expiry64(DEFAULTS, i.decoded.value, now);
            Wrap(DEFAULTS, i) == match Quote(1000, 10_000_000, 11_000, 1000, offer)
                                 case Err(e) => Err(e)
                                 case Ok((value, budget)) =>
                                   Ok(Wrapped(InvoiceParameters(hash, "", [], left, 200, value), budget))
  {
    var i := PlainInvoice(hash, timestamp, expiry, now, offer);
    Hex.RoundTrip(hash);
    DefaultTerms(10_000_000, 0);
    WrapSmall(timestamp + expiry);
    WrapSmall(now + 300);
    WrapSmall(184);
    assert Describe(i.x, i.decoded.value) == Ok(("", []));
  }

  /** The bound on the offer is needed: the largest offer is accepted and quotes one msat less than the
      relay has to pay out. */
  lemma LargestOfferUnderquotes(hash: Bytes) returns (i: Inputs, w: Wrapped)
    ensures i.decoded.Some? && i.x.routingMsat == Some(TWO_64 - 1) && Wrap(DEFAULTS, i) == Ok(w)
    ensures w.q.hash == hash && w.q.valueMsat == i.decoded.value.numMsat - 1
  {
    i := PlainInvoice(hash, 0, 3600, 0, Some(TWO_64 - 1));
    PlainWraps(hash, 0, 3600, 0, Some(TWO_64 - 1));
    assert Quote(1000, 10_000_000, 11_000, 1000, Some(TWO_64 - 1)) == Ok((9_999_999, TWO_64 - 11_001));
    w := Wrap(DEFAULTS, i).value;
  }

  // ---------------------------------------------------------------- expiry

  /** The wrapped invoice, created at the second clock reading, expires exactly ExpiryBuffer before the
      (clamped) end of the original, if and only if that moment is not already past and less than 2^64
      seconds away. */
  lemma ExpiryExact(rp: RelayParameters, i: Inputs, w: Wrapped)
    requires Quoted(rp, i, w)
    ensures var p := i.decoded.value;
            var end := p.timestamp + Min(p.expiry, rp.maxExpiry);
            && (i.now2 + w.q.expiry + rp.expiryBuffer == end <==> 0 <= end - (i.now2 + rp.expiryBuffer) < TWO_64)
            && (0 <= end - (i.now2 + rp.expiryBuffer) < TWO_64 ==>
                  i.now2 + w.q.expiry + rp.expiryBuffer <= p.timestamp + p.expiry)
  {
    QuoteTerms(rp, i, w);
    ExpiryTerm(rp, i.decoded.value, i.now2);
  }

  lemma ExpiryTerm(rp: RelayParameters, p: PayReq, now: uint64)
    ensures var end := p.timestamp + Min(p.expiry, rp.maxExpiry);
            && (now + Expiry64(rp, p, now) + rp.expiryBuffer == end <==> 0 <= end - (now + rp.expiryBuffer) < TWO_64)
            && end <= p.timestamp + p.expiry
  {
    ExpiryDifference(p.timestamp + Min(p.expiry, rp.maxExpiry) - now - rp.expiryBuffer);
  }

  lemma ExpiryDifference(d: int)
    ensures Wrap64(d) == d <==> 0 <= d < TWO_64
  {
  }

  /** With one clock reading and no clamping the guard is enough. */
  lemma ExpiryGuarded(rp: RelayParameters, i: Inputs, w: Wrapped)
    requires Quoted(rp, i, w) && i.now1 == i.now2 && i.decoded.value.expiry <= rp.maxExpiry
    requires i.decoded.value.timestamp + i.decoded.value.expiry < TWO_64
    requires i.now1 + rp.expiryBuffer < TWO_64
    ensures i.now2 + w.q.expiry + rp.expiryBuffer == i.decoded.value.timestamp + i.decoded.value.expiry
  {
    QuoteTerms(rp, i, w);
    GuardMeans(i.decoded.value.timestamp + i.decoded.value.expiry, i.now1 + rp.expiryBuffer);
    ExpiryExact(rp, i, w);
  }

  lemma GuardMeans(end: int, start: int)
    requires 0 <= end < TWO_64 && 0 <= start < TWO_64 && Wrap64(end) >= Wrap64(start)
    ensures start <= end
  {
  }

  /** The guard tests the unclamped expiry: an old invoice with a long expiry passes it and is quoted an
      expiry that wrapped around. */
  lemma ClampedExpiryWraps(hash: Bytes) returns (i: Inputs)
    ensures i.decoded.Some? && i.now1 == i.now2 && i.decoded.value.expiry > DEFAULTS.maxExpiry && Wrap(DEFAULTS, i).Ok?
    ensures i.now2 + Wrap(DEFAULTS, i).value.q.expiry > i.decoded.value.timestamp + i.decoded.value.expiry
  {
    i := PlainInvoice(hash, 1_000_000, 2_000_000, 2_000_000, None);
    PlainWraps(hash, 1_000_000, 2_000_000, 2_000_000, None);
    assert Expiry64(DEFAULTS, i.decoded.value, 2_000_000) == TWO_64 - 395_500;
  }

  // ---------------------------------------------------------------- timelock

  /** The CltvLimit circuitSwitch passes to PayInvoice. */
  function CltvLimit(rp: RelayParameters, reportedDelta: uint64): uint64 {
    Wrap64(reportedDelta - rp.cltvDeltaAlpha)
  }

  /** The limit is a true difference exactly when the reported delta covers Alpha. If lnd reports at least
      what the wrapped invoice asked for, it does, and the limit leaves the estimated route plus Beta. */
  lemma CltvLimitCoversRoute(rp: RelayParameters, i: Inputs, w: Wrapped, reportedDelta: uint64)
    requires Quoted(rp, i, w)
    requires i.estimate.value.1 + rp.cltvDeltaBeta + rp.cltvDeltaAlpha < TWO_64
    ensures CltvLimit(rp, reportedDelta) == reportedDelta - rp.cltvDeltaAlpha
       <==> rp.cltvDeltaAlpha <= reportedDelta
    ensures w.q.cltvExpiry <= reportedDelta ==>
              && rp.cltvDeltaAlpha <= reportedDelta
              && i.estimate.value.1 + rp.cltvDeltaBeta <= CltvLimit(rp, reportedDelta)
  {
    QuoteTerms(rp, i, w);
    DeltaDifference(reportedDelta, rp.cltvDeltaAlpha);
    DeltaDifference(i.estimate.value.1 + rp.cltvDeltaBeta + rp.cltvDeltaAlpha, 0);
  }

  lemma DeltaDifference(d: uint64, a: uint64)
    ensures Wrap64(d - a) == d - a <==> a <= d
  {
  }

  // ---------------------------------------------------------------- agreement with the challenger

  /** getRoutingMsat: int64 multiplication and truncating division, then a conversion to uint64. */
  function GetRoutingMsat(amountSats: int): uint64 {
    var tripled := WrapSigned64(amountSats * 3);
    var routing := Wrap64(if tripled >= 0 then tripled / 100 else -((-tripled) / 100));
    if routing < 10_000 then 10_000 else routing
  }

  /** The challenger's offer passes the relay's amount and fee checks, for an invoice of exactly the price,
      precisely for prices from 10 to 8000 satoshis: the offer is computed in satoshis but read in msat. */
  lemma FeeAgreement(price: int)
    requires 0 <= price && price * 1000 < TWO_64
    ensures var num := price * 1000;
            (&& DEFAULTS.minAmountMsat <= num <= DEFAULTS.maxAmountMsat
             && GetRoutingMsat(price) >= Wrap64(DEFAULTS.minFeeBudgetMsat + RoutingFee64(DEFAULTS, num)))
            <==> 10 <= price <= 8000
  {
    if price <= 1_000_000 {
      OfferAt(price);
      DefaultTerms(price * 1000, 0);
      WrapSmall(2000 + price);
    }
  }

  /** The offer is three percent of the price, but read as millisatoshis, and at least 10 000. */
  lemma OfferAt(price: nat)
    requires price * 3 < TWO_63
    ensures GetRoutingMsat(price) == if price * 3 / 100 < 10_000 then 10_000 else price * 3 / 100
  {
    WrapSmall(price * 3 / 100);
  }

  lemma WrapSmall(x: nat)
    requires x < TWO_64
    ensures Wrap64(x) == x
  {
  }
}
