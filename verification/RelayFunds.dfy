/** What the relay earns and risks over every run of its circuits. */
module RelayFunds {
  import opened Words
  import opened RelayWrap
  import opened RelayCircuits
  import Hex

  /** The invoice of a circuit covers its amount, its fee budget and the true routing fee. */
  predicate ExactQuote(rp: RelayParameters, c: Circuit) {
    c.amount < TWO_64 && c.value == c.amount + c.budget + RoutingFee(rp, c.amount)
  }

  /** A circuit of any run is quoted exactly if and only if the input it was opened with is funded. */
  lemma ExactQuoteIff(e: Env, ws: seq<World>, acts: seq<Action>, n: nat, k: nat) returns (j: nat)
    requires Run(e, ws, acts) && n <= |acts| && k < |ws[n].circuits|
    ensures j < n && OpenedBy(e, acts[j], ws[n].circuits[k])
    ensures ExactQuote(e.rp, ws[n].circuits[k]) <==> Funded(e.rp, acts[j].inputs)
  {
    j := CircuitsWereOpened(e, ws, acts, n, k);
    QuoteFunded(e.rp, acts[j].inputs, Wrap(e.rp, acts[j].inputs).value);
  }

  /** Every invoice accepted for relaying was funded. */
  ghost predicate AllFunded(e: Env, acts: seq<Action>) {
    forall j | 0 <= j < |acts| && acts[j].OpenCircuit? && Wrap(e.rp, acts[j].inputs).Ok? :: Funded(e.rp, acts[j].inputs)
  }

  predicate SettledAt(w: World, k: nat)
    requires k < |w.circuits|
  {
    w.circuits[k].hash in w.holds && w.holds[w.circuits[k].hash].state.Settled?
  }

  predicate PaidAt(w: World, k: nat)
    requires k < |w.circuits|
  {
    Paid(PaymentOf(w, w.circuits[k].hash))
  }

  /** The routing fees of the settled circuits. */
  function Fees(rp: RelayParameters, w: World): (s: seq<int>)
    ensures |s| == |w.circuits|
    ensures forall k | 0 <= k < |s| :: s[k] == FeeAt(rp, w, k)
  {
    seq(|w.circuits|, k requires 0 <= k < |w.circuits| => FeeAt(rp, w, k))
  }

  function FeeAt(rp: RelayParameters, w: World, k: nat): nat
    requires k < |w.circuits|
  {
    if SettledAt(w, k) && w.circuits[k].amount < TWO_64 then RoutingFee(rp, w.circuits[k].amount) else 0
  }

  /** What the paid-but-not-settled circuits may have cost. */
  function Limbo(w: World): (s: seq<int>)
    ensures |s| == |w.circuits|
    ensures forall k | 0 <= k < |s| :: s[k] == if PaidAt(w, k) && !SettledAt(w, k)
                                               then w.circuits[k].amount + w.circuits[k].budget else 0
  {
    seq(|w.circuits|, k requires 0 <= k < |w.circuits| =>
      if PaidAt(w, k) && !SettledAt(w, k) then w.circuits[k].amount + w.circuits[k].budget else 0)
  }

  /** The least the balance can be: the start, the fees earned, less what is in limbo. */
  ghost function Floor(e: Env, w: World): int {
    w.start + Sum(Fees(e.rp, w)) - Sum(Limbo(w))
  }

  function Floors(rp: RelayParameters, w: World): (s: seq<int>)
    ensures |s| == |w.circuits|
    ensures forall k | 0 <= k < |s| :: s[k] == Fees(rp, w)[k] - Limbo(w)[k]
  {
    seq(|w.circuits|, k requires 0 <= k < |w.circuits| => Fees(rp, w)[k] - Limbo(w)[k])
  }

  lemma NetFloor(e: Env, w: World, k: nat)
    requires k < |w.circuits| && FitsAt(e, w, k) && ExactQuote(e.rp, w.circuits[k])
    ensures NetAt(w, k) >= Floors(e.rp, w)[k]
  {
    var c := w.circuits[k];
    var pay := PaymentOf(w, c.hash);
    if Paid(pay) {
      assert pay.value.amount + pay.value.state.fee <= c.amount + c.budget;
    }
  }

  lemma BalanceFloor(e: Env, w: World)
    requires Inv(e, w) && forall k | 0 <= k < |w.circuits| :: ExactQuote(e.rp, w.circuits[k])
    ensures w.balance >= Floor(e, w)
  {
    forall k | 0 <= k < |w.circuits| ensures Nets(w)[k] >= Floors(e.rp, w)[k] {
      assert FitsAt(e, w, k);
      NetFloor(e, w, k);
    }
    SumAtLeast(Nets(w), Floors(e.rp, w));
    SumLinear(Floors(e.rp, w), Fees(e.rp, w), Limbo(w));
  }

  lemma AllExact(e: Env, ws: seq<World>, acts: seq<Action>, n: nat)
    requires Run(e, ws, acts) && n <= |acts| && AllFunded(e, acts)
    ensures forall k | 0 <= k < |ws[n].circuits| :: ExactQuote(e.rp, ws[n].circuits[k])
  {
    forall k | 0 <= k < |ws[n].circuits| ensures ExactQuote(e.rp, ws[n].circuits[k]) {
      var j := ExactQuoteIff(e, ws, acts, n, k);
      assert acts[j].OpenCircuit? && Wrap(e.rp, acts[j].inputs).Ok?;
    }
  }

  /** Over every interleaving of any number of funded circuits, with crashes and restarts anywhere, the
      balance is at least its start plus the fees earned minus what is in limbo. */
  lemma FundsConserved(e: Env, ws: seq<World>, acts: seq<Action>, n: nat)
    requires Run(e, ws, acts) && n <= |acts| && AllFunded(e, acts)
    ensures ws[n].balance >= Floor(e, ws[n])
  {
    InvAlongRun(e, ws, acts, n);
    AllExact(e, ws, acts, n);
    BalanceFloor(e, ws[n]);
  }

  lemma {:induction false} SumZero(s: seq<int>)
    requires forall k | 0 <= k < |s| :: s[k] == 0
    ensures Sum(s) == 0
  {
    if s != [] { SumZero(s[..|s| - 1]); }
  }

  lemma {:induction false} SumNonNegative(s: seq<int>)
    requires forall k | 0 <= k < |s| :: s[k] >= 0
    ensures Sum(s) >= 0
  {
    if s != [] { SumNonNegative(s[..|s| - 1]); }
  }

  lemma NothingInLimbo(e: Env, w: World)
    requires Coupled(e, w) && forall k | 0 <= k < |w.circuits| :: w.circuits[k].phase.Finished?
    ensures Sum(Limbo(w)) == 0
  {
    forall k | 0 <= k < |w.circuits| ensures Limbo(w)[k] == 0 {
      assert FitsAt(e, w, k);
    }
    SumZero(Limbo(w));
  }

  /** When every circuit has run to its end, nothing is in limbo and the balance has not dropped. */
  lemma FinishedWithoutLoss(e: Env, ws: seq<World>, acts: seq<Action>, n: nat)
    requires Run(e, ws, acts) && n <= |acts| && AllFunded(e, acts)
    requires forall k | 0 <= k < |ws[n].circuits| :: ws[n].circuits[k].phase.Finished?
    ensures ws[n].balance >= ws[n].start + Sum(Fees(e.rp, ws[n])) >= ws[n].start
  {
    FundsConserved(e, ws, acts, n);
    InvAlongRun(e, ws, acts, n);
    NothingInLimbo(e, ws[n]);
    SumNonNegative(Fees(e.rp, ws[n]));
  }

  // ---------------------------------------------------------------- one circuit, step by step

  /** The life of one more circuit: opened, locked in, watched, sent, paid. The payer locks in exactly the
      value asked for, and the payment costs fee. */
  datatype Life = Life(i: Inputs, q: Wrapped, preimage: Bytes, fee: nat)

  ghost predicate Lives(e: Env, w: World, l: Life) {
    && Wrap(e.rp, l.i) == Ok(l.q) && l.i.decoded.Some? && e.sha(l.preimage) == l.q.q.hash
    && l.fee <= l.q.feeBudgetMsat && w.running && l.q.q.hash !in w.holds && l.q.q.hash !in w.payments
  }

  function LifeHold(l: Life, height: nat, s: nat): Hold {
    Hold(l.q.q.valueMsat, if s < 2 then Open else Accepted(l.q.q.valueMsat, height))
  }

  function LifeCircuit(rp: RelayParameters, l: Life, height: nat, s: nat): Circuit
    requires l.i.decoded.Some?
  {
    var c := NewCircuit(rp, l.i, l.q);
    if s < 3 then c else c.(phase := if s < 4 then Sending else Paying, watchHeight := height)
  }

  function LifePayment(rp: RelayParameters, l: Life, height: nat, s: nat): Payment
    requires l.i.decoded.Some?
  {
    Payment(l.i.decoded.value.numMsat, l.q.feeBudgetMsat, CltvLimit(rp, 0), height, 0,
            if s < 5 then InFlight else Succeeded(l.preimage, l.fee))
  }

  /** The world after s of its steps. */
  function LifeWorld(rp: RelayParameters, w: World, l: Life, s: nat): World
    requires l.i.decoded.Some?
  {
    if s == 0 then w
    else
      var h := l.q.q.hash;
      w.(holds := w.holds[h := LifeHold(l, w.height, s)],
         circuits := w.circuits + [LifeCircuit(rp, l, w.height, s)],
         payments := if s < 4 then w.payments else w.payments[h := LifePayment(rp, l, w.height, s)],
         balance := if s < 5 then w.balance else w.balance - l.i.decoded.value.numMsat - l.fee)
  }

  function LifeAction(w: World, l: Life, s: nat): Action {
    var h, k := l.q.q.hash, |w.circuits|;
    if s == 0 then OpenCircuit(l.i, true, true)
    else if s == 1 then Lock(h, l.q.q.valueMsat, w.height)
    else if s == 2 then WatchAccepted(k, 0)
    else if s == 3 then Pay(k, 0)
    else PaymentSucceeds(h, l.preimage, l.fee)
  }

  lemma LifeOpen(e: Env, w: World, l: Life)
    requires Lives(e, w, l)
    ensures Next(e, LifeWorld(e.rp, w, l, 0), LifeAction(w, l, 0), LifeWorld(e.rp, w, l, 1))
  {
  }

  lemma LifeLock(e: Env, w: World, l: Life)
    requires Lives(e, w, l)
    ensures Next(e, LifeWorld(e.rp, w, l, 1), LifeAction(w, l, 1), LifeWorld(e.rp, w, l, 2))
  {
    var h := l.q.q.hash;
    assert w.holds[h := LifeHold(l, w.height, 1)][h := LifeHold(l, w.height, 2)]
        == w.holds[h := LifeHold(l, w.height, 2)];
  }

  lemma LastUpdated(cs: seq<Circuit>, c: Circuit, d: Circuit)
    ensures (cs + [c])[|cs| := d] == cs + [d]
  {
  }

  lemma LifeWatch(e: Env, w: World, l: Life)
    requires Lives(e, w, l)
    ensures Next(e, LifeWorld(e.rp, w, l, 2), LifeAction(w, l, 2), LifeWorld(e.rp, w, l, 3))
  {
    LastUpdated(w.circuits, LifeCircuit(e.rp, l, w.height, 2), LifeCircuit(e.rp, l, w.height, 3));
  }

  lemma LifePay(e: Env, w: World, l: Life)
    requires Lives(e, w, l)
    ensures Next(e, LifeWorld(e.rp, w, l, 3), LifeAction(w, l, 3), LifeWorld(e.rp, w, l, 4))
  {
    LastUpdated(w.circuits, LifeCircuit(e.rp, l, w.height, 3), LifeCircuit(e.rp, l, w.height, 4));
  }

  lemma LifeSucceed(e: Env, w: World, l: Life)
    requires Lives(e, w, l)
    ensures Next(e, LifeWorld(e.rp, w, l, 4), LifeAction(w, l, 4), LifeWorld(e.rp, w, l, 5))
  {
    var h := l.q.q.hash;
    assert w.payments[h := LifePayment(e.rp, l, w.height, 4)][h := LifePayment(e.rp, l, w.height, 5)]
        == w.payments[h := LifePayment(e.rp, l, w.height, 5)];
  }

  lemma LifeStep(e: Env, w: World, l: Life, s: nat)
    requires Lives(e, w, l) && s < 5
    ensures Next(e, LifeWorld(e.rp, w, l, s), LifeAction(w, l, s), LifeWorld(e.rp, w, l, s + 1))
  {
    if s == 0 { LifeOpen(e, w, l); }
    else if s == 1 { LifeLock(e, w, l); }
    else if s == 2 { LifeWatch(e, w, l); }
    else if s == 3 { LifePay(e, w, l); }
    else { LifeSucceed(e, w, l); }
  }

  /** Any run can be extended by the first s steps of one more circuit. */
  lemma {:induction false} Live(e: Env, ws: seq<World>, acts: seq<Action>, l: Life, s: nat)
    returns (ws': seq<World>, acts': seq<Action>)
    requires Run(e, ws, acts) && Lives(e, ws[|acts|], l) && s <= 5
    ensures Run(e, ws', acts') && |acts'| == |acts| + s && ws <= ws' && acts <= acts'
    ensures ws'[|acts'|] == LifeWorld(e.rp, ws[|acts|], l, s)
    ensures forall j | |acts| <= j < |acts'| :: acts'[j] == LifeAction(ws[|acts|], l, j - |acts|)
    ensures forall j | 0 <= j <= s :: ws'[|acts| + j] == LifeWorld(e.rp, ws[|acts|], l, j)
  {
    if s == 0 {
      ws', acts' := ws, acts;
    } else {
      var ws0, acts0 := Live(e, ws, acts, l, s - 1);
      var w := ws[|acts|];
      LifeStep(e, w, l, s - 1);
      Extend(e, ws0, acts0, LifeAction(w, l, s - 1), LifeWorld(e.rp, w, l, s));
      ws', acts' := ws0 + [LifeWorld(e.rp, w, l, s)], acts0 + [LifeAction(w, l, s - 1)];
    }
  }

  // ---------------------------------------------------------------- unfunded circuits

  function FreshWorld(start: int): World {
    World(start, start, 0, true, map[], map[], [])
  }

  /** The end of a run in which a single circuit is opened, paid and settled. */
  ghost predicate SettledAlone(e: Env, w: World, l: Life, start: int)
    requires l.i.decoded.Some?
  {
    && w.start == start && w.circuits == [LifeCircuit(e.rp, l, 0, 5).(phase := Finished)]
    && w.holds == map[l.q.q.hash := Hold(l.q.q.valueMsat, Settled(l.q.q.valueMsat, l.preimage))]
    && w.payments == map[l.q.q.hash := LifePayment(e.rp, l, 0, 5)]
    && w.balance == start + l.q.q.valueMsat - l.i.decoded.value.numMsat - l.fee
  }

  ghost predicate NoneSettled(w: World) {
    forall h | h in w.holds :: !w.holds[h].state.Settled?
  }

  /** Any invoice wrap accepts can be relayed from start to finish. */
  lemma SettlingRun(e: Env, l: Life, start: int) returns (ws: seq<World>, acts: seq<Action>)
    requires Lives(e, FreshWorld(start), l)
    ensures Run(e, ws, acts) && |acts| == 7 && acts[0] == OpenCircuit(l.i, true, true) && ws[0] == FreshWorld(start)
    ensures forall j | 0 < j < 7 :: !acts[j].OpenCircuit?
    ensures forall j | 0 <= j < 7 :: NoneSettled(ws[j])
    ensures SettledAlone(e, ws[7], l, start)
  {
    var w := FreshWorld(start);
    assert Run(e, [w], []);
    ws, acts := Live(e, [w], [], l, 5);
    var w5 := LifeWorld(e.rp, w, l, 5);
    var w6 := Move(w5, 0, Settling(l.preimage));
    Extend(e, ws, acts, PayReturnsPreimage(0), w6);
    ws, acts := ws + [w6], acts + [PayReturnsPreimage(0)];
    var w7 := Move(SettleHold(w6, l.q.q.hash, l.preimage), 0, Finished);
    Extend(e, ws, acts, Settle(0, true), w7);
    ws, acts := ws + [w7], acts + [Settle(0, true)];
    forall j | 0 <= j < 7 ensures NoneSettled(ws[j]) {
      assert j <= 5 ==> ws[j] == LifeWorld(e.rp, w, l, j);
      assert j == 6 ==> ws[j] == w6;
    }
  }

  lemma AloneFloor(e: Env, w: World, l: Life, start: int)
    requires l.i.decoded.Some? && SettledAlone(e, w, l, start)
    ensures Floor(e, w) == start + RoutingFee(e.rp, l.i.decoded.value.numMsat)
  {
    assert Fees(e.rp, w)[..0] == [] && Limbo(w)[..0] == [];
  }

  /** The condition is exact: an input that is not funded, once accepted and relayed to its end at the price
      of its whole fee budget, leaves the relay below the floor; a funded one meets it. */
  lemma UnfundedFallsShort(e: Env, l: Life, start: int) returns (ws: seq<World>, acts: seq<Action>)
    requires Lives(e, FreshWorld(start), l) && l.fee == l.q.feeBudgetMsat
    ensures Run(e, ws, acts) && |acts| == 7 && acts[0] == OpenCircuit(l.i, true, true)
    ensures forall j | 0 < j < 7 :: !acts[j].OpenCircuit?
    ensures |ws[7].circuits| == 1 && ws[7].circuits[0].phase.Finished? && SettledAt(ws[7], 0)
    ensures ws[7].balance >= Floor(e, ws[7]) <==> Funded(e.rp, l.i)
  {
    ws, acts := SettlingRun(e, l, start);
    AloneFloor(e, ws[7], l, start);
    QuoteFunded(e.rp, l.i, l.q);
  }

  /** With the default parameters and the largest offer the relay ends poorer even if routing is free. */
  lemma LossOfOneMsat(sha: Bytes -> Bytes, preimage: Bytes, start: int) returns (ws: seq<World>, acts: seq<Action>)
    ensures Run(Env(sha, DEFAULTS), ws, acts) && |acts| == 7
    ensures |ws[7].circuits| == 1 && ws[7].circuits[0].phase.Finished? && SettledAt(ws[7], 0)
    ensures ws[7].balance == start - 1
  {
    var e := Env(sha, DEFAULTS);
    var i, q := LargestOfferUnderquotes(sha(preimage));
    ws, acts := SettlingRun(e, Life(i, q, preimage, 0), start);
  }

  // ---------------------------------------------------------------- the limbo bound of the README

  /** The principal in limbo, and how many circuits it belongs to. */
  function LimboPrincipal(w: World): (s: seq<int>)
    ensures |s| == |w.circuits|
    ensures forall k | 0 <= k < |s| :: s[k] == if PaidAt(w, k) && !SettledAt(w, k) then w.circuits[k].amount else 0
  {
    seq(|w.circuits|, k requires 0 <= k < |w.circuits| =>
      if PaidAt(w, k) && !SettledAt(w, k) then w.circuits[k].amount else 0)
  }

  function LimboCircuits(w: World): (s: seq<int>)
    ensures |s| == |w.circuits|
    ensures forall k | 0 <= k < |s| :: s[k] == if PaidAt(w, k) && !SettledAt(w, k) then 1 else 0
  {
    seq(|w.circuits|, k requires 0 <= k < |w.circuits| => if PaidAt(w, k) && !SettledAt(w, k) then 1 else 0)
  }

  lemma {:induction false} SumScaled(s: seq<int>, t: seq<int>, m: int)
    requires |s| == |t| && forall k | 0 <= k < |s| :: s[k] <= m * t[k]
    ensures Sum(s) <= m * Sum(t)
  {
    if s != [] {
      var n := |s| - 1;
      SumScaled(s[..n], t[..n], m);
    }
  }

  /** MaxAmountMsat bounds what each circuit can leave in limbo, not the total. */
  lemma LimboPerCircuit(e: Env, w: World)
    requires Reachable(e, w)
    ensures Sum(LimboPrincipal(w)) <= e.rp.maxAmountMsat * Sum(LimboCircuits(w))
  {
    ReachableInv(e, w);
    forall k | 0 <= k < |w.circuits|
      ensures LimboPrincipal(w)[k] <= e.rp.maxAmountMsat * LimboCircuits(w)[k]
    {
      assert FitsAt(e, w, k);
    }
    SumScaled(LimboPrincipal(w), LimboCircuits(w), e.rp.maxAmountMsat);
  }

  function LargestInvoice(hash: Bytes): Inputs {
    Inputs(Some(PayReq(1_000_000_000, 0, 604800, {}, Hex.Encode(hash), "", "")),
           ProxyParameters(None, None, None), Some((0, 100)), 0, 0)
  }

  function LargestWrapped(hash: Bytes): Wrapped {
    Wrapped(InvoiceParameters(hash, "", [], 604500, 200, 1_001_002_000), 1000)
  }

  lemma LargestInvoiceWraps(hash: Bytes)
    ensures Wrap(DEFAULTS, LargestInvoice(hash)) == Ok(LargestWrapped(hash))
  {
    var i := LargestInvoice(hash);
    Hex.RoundTrip(hash);
    DefaultTerms(1_000_000_000, 0);
    assert Describe(i.x, i.decoded.value) == Ok(("", []));
    assert Expiry64(DEFAULTS, i.decoded.value, 0) == 604500;
    assert AtLeast(Cltv64(DEFAULTS, 100), 200) == 200;
    assert Quote(1000, 1_000_000_000, 1_001_000, 1000, None) == Ok((1_001_002_000, 1000));
  }

  lemma LargestLife(sha: Bytes -> Bytes, preimage: Bytes) returns (l: Life)
    ensures Lives(Env(sha, DEFAULTS), FreshWorld(0), l) && l.preimage == preimage && l.q.q.hash == sha(preimage)
  {
    LargestInvoiceWraps(sha(preimage));
    l := Life(LargestInvoice(sha(preimage)), LargestWrapped(sha(preimage)), preimage, 0);
  }

  ghost predicate DistinctHashes(sha: Bytes -> Bytes, preimages: seq<Bytes>) {
    forall i, j | 0 <= i < j < |preimages| :: sha(preimages[i]) != sha(preimages[j])
  }

  /** Hashes seen so far. */
  ghost predicate OnlyHashes(w: World, sha: Bytes -> Bytes, preimages: seq<Bytes>) {
    forall h | h in w.holds || h in w.payments :: exists i :: 0 <= i < |preimages| && sha(preimages[i]) == h
  }

  lemma LimboUntouched(rp: RelayParameters, v: World, l: Life, k: nat)
    requires l.i.decoded.Some? && k < |v.circuits| && v.circuits[k].hash in v.holds && l.q.q.hash !in v.holds
    ensures LimboPrincipal(LifeWorld(rp, v, l, 5))[k] == LimboPrincipal(v)[k]
  {
  }

  lemma SumLast(s: seq<int>, t: seq<int>)
    requires |s| == |t| + 1 && s[..|t|] == t
    ensures Sum(s) == Sum(t) + s[|t|]
  {
  }

  lemma LimboOfNewest(rp: RelayParameters, v: World, l: Life)
    requires l.i.decoded.Some?
    ensures LimboPrincipal(LifeWorld(rp, v, l, 5))[|v.circuits|] == l.i.decoded.value.numMsat
  {
  }

  lemma LimboExtends(e: Env, v: World, l: Life)
    requires Coupled(e, v) && Lives(e, v, l)
    ensures Sum(LimboPrincipal(LifeWorld(e.rp, v, l, 5))) == Sum(LimboPrincipal(v)) + l.i.decoded.value.numMsat
  {
    var s, t := LimboPrincipal(LifeWorld(e.rp, v, l, 5)), LimboPrincipal(v);
    forall k | 0 <= k < |t| ensures s[k] == t[k] {
      assert FitsAt(e, v, k);
      LimboUntouched(e.rp, v, l, k);
    }
    assert s[..|t|] == t;
    SumLast(s, t);
    LimboOfNewest(e.rp, v, l);
  }

  lemma HashesGrow(w: World, rp: RelayParameters, l: Life, sha: Bytes -> Bytes, preimages: seq<Bytes>)
    requires preimages != [] && l.i.decoded.Some?
    requires OnlyHashes(w, sha, preimages[..|preimages| - 1]) && l.q.q.hash == sha(preimages[|preimages| - 1])
    ensures OnlyHashes(LifeWorld(rp, w, l, 5), sha, preimages)
  {
    var n, w' := |preimages| - 1, LifeWorld(rp, w, l, 5);
    forall h | h in w'.holds || h in w'.payments ensures exists i :: 0 <= i < |preimages| && sha(preimages[i]) == h {
      if h == l.q.q.hash {
        assert sha(preimages[n]) == h;
      } else {
        var i :| 0 <= i < n && sha(preimages[..n][i]) == h;
        assert sha(preimages[i]) == h;
      }
    }
  }

  lemma HashIsNew(w: World, sha: Bytes -> Bytes, preimages: seq<Bytes>)
    requires preimages != [] && DistinctHashes(sha, preimages) && OnlyHashes(w, sha, preimages[..|preimages| - 1])
    ensures var h := sha(preimages[|preimages| - 1]); h !in w.holds && h !in w.payments
  {
    var n := |preimages| - 1;
    var h := sha(preimages[n]);
    forall i | 0 <= i < n ensures sha(preimages[..n][i]) != h {
      assert sha(preimages[i]) != sha(preimages[n]);
    }
  }

  /** Each preimage's circuit is paid but not settled. */
  lemma {:induction false} ManyInLimbo(sha: Bytes -> Bytes, preimages: seq<Bytes>)
    returns (ws: seq<World>, acts: seq<Action>)
    requires DistinctHashes(sha, preimages)
    ensures Run(Env(sha, DEFAULTS), ws, acts) && ws[|acts|].running && OnlyHashes(ws[|acts|], sha, preimages)
    ensures Sum(LimboPrincipal(ws[|acts|])) == |preimages| * DEFAULTS.maxAmountMsat
  {
    var e := Env(sha, DEFAULTS);
    if preimages == [] {
      ws, acts := [FreshWorld(0)], [];
      assert Run(e, ws, acts);
    } else {
      var n := |preimages| - 1;
      var vs, bs := ManyInLimbo(sha, preimages[..n]);
      var h, v := sha(preimages[n]), vs[|bs|];
      LargestInvoiceWraps(h);
      HashIsNew(v, sha, preimages);
      var l := Life(LargestInvoice(h), LargestWrapped(h), preimages[n], 0);
      ws, acts := Live(e, vs, bs, l, 5);
      InvAlongRun(e, vs, bs, |bs|);
      LimboExtends(e, v, l);
      HashesGrow(v, DEFAULTS, l, sha, preimages);
    }
  }

  /** The claim that at most MaxAmountMsat is ever in limbo fails: whatever the hash function, any number of
      preimages with different hashes can put that many times MaxAmountMsat there, and when the process then
      dies it stays there. */
  lemma LimboUnbounded(sha: Bytes -> Bytes, preimages: seq<Bytes>) returns (ws: seq<World>, acts: seq<Action>)
    requires DistinctHashes(sha, preimages)
    ensures Run(Env(sha, DEFAULTS), ws, acts) && |acts| > 0 && acts[|acts| - 1] == Crash && !ws[|acts|].running
    ensures Sum(LimboPrincipal(ws[|acts|])) == |preimages| * DEFAULTS.maxAmountMsat
  {
    var vs, bs := ManyInLimbo(sha, preimages);
    var v := vs[|bs|];
    var w := v.(running := false, circuits := LoseAll(v.circuits));
    assert LimboPrincipal(w) == LimboPrincipal(v);
    Extend(Env(sha, DEFAULTS), vs, bs, Crash, w);
    ws, acts := vs + [w], bs + [Crash];
  }
}
