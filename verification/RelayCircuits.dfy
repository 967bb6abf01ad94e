/** OpenCircuit and circuitSwitch as a step relation over any number of interleaved circuits, together
    with the lnd node they talk to: hold invoices and outgoing payments keyed by payment hash, and a block
    height. A panic takes the whole process down; the operator may start it again. */
module RelayCircuits {
  import opened Words
  import opened RelayWrap

  // ---------------------------------------------------------------- state

  datatype HoldState =
    | Open
    | Accepted(received: nat, expiryHeight: nat)
    | Settled(received: nat, preimage: Bytes)
    | Canceled(byRelay: bool)

  datatype Hold = Hold(value: uint64, state: HoldState)

  datatype PaymentState = InFlight | Succeeded(preimage: Bytes, fee: nat) | Failed

  datatype Payment = Payment(amount: nat, feeLimit: nat, cltvLimit: uint64, sentHeight: nat, outExpiry: nat,
                             state: PaymentState)

  /** Where a circuitSwitch goroutine stands; Lost means the process died under it. */
  datatype Phase = Watching | Sending | Paying | Settling(preimage: Bytes) | Finished | Lost

  /** One circuit: the terms wrap quoted for it, and what WatchInvoice reported. */
  datatype Circuit = Circuit(
    hash: Bytes, amount: nat, budget: nat, value: uint64, cltvExpiry: uint64,
    phase: Phase, watchHeight: nat, delta: uint64, cltvLimit: uint64)

  datatype World = World(
    start: int, balance: int, height: nat, running: bool,
    holds: map<Bytes, Hold>, payments: map<Bytes, Payment>, circuits: seq<Circuit>)

  /** The payment hash function and the relay's configuration. */
  datatype Env = Env(sha: Bytes -> Bytes, rp: RelayParameters)

  ghost predicate Init(w: World) {
    w.balance == w.start && w.running && w.holds == map[] && w.payments == map[] && w.circuits == []
  }

  // ---------------------------------------------------------------- steps

  datatype Action =
    // relay
    | OpenCircuit(inputs: Inputs, registered: bool, replied: bool)
    | WatchAccepted(k: nat, delta: uint64)
    | WatchFailed(k: nat, sawCanceled: bool, effective: bool)
    | Pay(k: nat, outExpiry: nat)
    | PayReturnsPreimage(k: nat)
    | PayReturnsFailed(k: nat, effective: bool)
    | Settle(k: nat, replied: bool)
    | Crash
    | Restart
    // lnd and the network
    | Lock(h: Bytes, received: nat, expiryHeight: nat)
    | LndCancels(h: Bytes)
    | PaymentSucceeds(h: Bytes, preimage: Bytes, fee: nat)
    | PaymentFails(h: Bytes)
    | Mine

  function NewCircuit(rp: RelayParameters, i: Inputs, q: Wrapped): Circuit
    requires i.decoded.Some?
  {
    Circuit(q.q.hash, i.decoded.value.numMsat, q.feeBudgetMsat, q.q.valueMsat, q.q.cltvExpiry,
            Watching, 0, 0, CltvLimit(rp, 0))
  }

  /** CancelInvoice: lnd cancels what is not settled; the call may also fail. */
  function CancelHold(hold: Hold, effective: bool): Hold {
    if effective && (hold.state.Open? || hold.state.Accepted?) then hold.(state := Canceled(true)) else hold
  }

  function LoseAll(cs: seq<Circuit>): (r: seq<Circuit>)
    ensures |r| == |cs|
    ensures forall k | 0 <= k < |cs| ::
              r[k] == if cs[k].phase.Finished? then cs[k] else cs[k].(phase := Lost)
  {
    seq(|cs|, k requires 0 <= k < |cs| => if cs[k].phase.Finished? then cs[k] else cs[k].(phase := Lost))
  }

  ghost predicate AtPhase(w: World, k: nat) {
    w.running && k < |w.circuits| && w.circuits[k].hash in w.holds
  }

  function Move(w: World, k: nat, phase: Phase): World
    requires k < |w.circuits|
  {
    w.(circuits := w.circuits[k := w.circuits[k].(phase := phase)])
  }

  ghost predicate OpenStep(e: Env, w: World, i: Inputs, registered: bool, replied: bool, w': World) {
    && w.running
    && match Wrap(e.rp, i)
       case Err(_) => w' == w
       case Ok(q) =>
         // AddInvoice answers PaymentHashExists for a known hash; its reply may be lost.
         if q.q.hash in w.holds || !registered || i.decoded.None? then w' == w
         else w' == w.(holds := w.holds[q.q.hash := Hold(q.q.valueMsat, Open)],
                       circuits := w.circuits + if replied then [NewCircuit(e.rp, i, q)] else [])
  }

  ghost predicate WatchAcceptedStep(e: Env, w: World, k: nat, delta: uint64, w': World) {
    && AtPhase(w, k) && w.circuits[k].phase.Watching?
    && w.holds[w.circuits[k].hash].state.Accepted?
    && w.holds[w.circuits[k].hash].state.expiryHeight == w.height + delta
    && w' == w.(circuits := w.circuits[k := w.circuits[k].(
                  phase := Sending, watchHeight := w.height, delta := delta, cltvLimit := CltvLimit(e.rp, delta))])
  }

  /** WatchInvoice failed or reported another state: cancel unless it is canceled already, and stop. */
  ghost predicate WatchFailedStep(w: World, k: nat, sawCanceled: bool, effective: bool, w': World) {
    && AtPhase(w, k) && w.circuits[k].phase.Watching?
    && var h := w.circuits[k].hash;
    && (sawCanceled ==> w.holds[h].state.Canceled?)
    && w' == Move(w, k, Finished).(holds := w.holds[h := CancelHold(w.holds[h], effective && !sawCanceled)])
  }

  ghost predicate PayStep(w: World, k: nat, outExpiry: nat, w': World) {
    && AtPhase(w, k) && w.circuits[k].phase.Sending?
    && var c := w.circuits[k];
    && outExpiry <= w.height + c.cltvLimit
    && w' == Move(w, k, Paying).(payments :=
               w.payments[c.hash := Payment(c.amount, c.budget, c.cltvLimit, w.height, outExpiry, InFlight)])
  }

  ghost predicate PreimageStep(w: World, k: nat, w': World) {
    && AtPhase(w, k) && w.circuits[k].phase.Paying?
    && var h := w.circuits[k].hash;
    && h in w.payments && w.payments[h].state.Succeeded?
    && w' == Move(w, k, Settling(w.payments[h].state.preimage))
  }

  ghost predicate PaymentFailedStep(w: World, k: nat, effective: bool, w': World) {
    && AtPhase(w, k) && w.circuits[k].phase.Paying?
    && var h := w.circuits[k].hash;
    && h in w.payments && w.payments[h].state.Failed?
    && w' == Move(w, k, Finished).(holds := w.holds[h := CancelHold(w.holds[h], effective)])
  }

  /** lnd settles an accepted invoice and credits what the payer locked in. */
  function SettleHold(w: World, h: Bytes, p: Bytes): World
    requires h in w.holds && w.holds[h].state.Accepted?
  {
    var received := w.holds[h].state.received;
    w.(holds := w.holds[h := w.holds[h].(state := Settled(received, p))], balance := w.balance + received)
  }

  /** SettleInvoice settles whatever invoice the preimage hashes to; a lost reply is a panic. */
  ghost predicate SettleStep(e: Env, w: World, k: nat, replied: bool, w': World) {
    && AtPhase(w, k) && w.circuits[k].phase.Settling?
    && var p := w.circuits[k].phase.preimage;
    && var h := e.sha(p);
    && h in w.holds && w.holds[h].state.Accepted?
    && w' == if replied then Move(SettleHold(w, h, p), k, Finished)
             else SettleHold(w, h, p).(running := false, circuits := LoseAll(w.circuits))
  }

  ghost predicate LockStep(w: World, h: Bytes, received: nat, expiryHeight: nat, w': World) {
    && h in w.holds && w.holds[h].state.Open? && w.holds[h].value <= received
    && w' == w.(holds := w.holds[h := w.holds[h].(state := Accepted(received, expiryHeight))])
  }

  /** lnd cancels on its own: the invoice expired, or the incoming HTLC is about to. */
  ghost predicate LndCancelStep(w: World, h: Bytes, w': World) {
    && h in w.holds && (w.holds[h].state.Open? || w.holds[h].state.Accepted?)
    && w' == w.(holds := w.holds[h := w.holds[h].(state := Canceled(false))])
  }

  ghost predicate SucceedStep(e: Env, w: World, h: Bytes, preimage: Bytes, fee: nat, w': World) {
    && h in w.payments && w.payments[h].state.InFlight?
    && e.sha(preimage) == h && fee <= w.payments[h].feeLimit
    && w' == w.(payments := w.payments[h := w.payments[h].(state := Succeeded(preimage, fee))],
                balance := w.balance - w.payments[h].amount - fee)
  }

  ghost predicate FailStep(w: World, h: Bytes, w': World) {
    && h in w.payments && w.payments[h].state.InFlight?
    && w' == w.(payments := w.payments[h := w.payments[h].(state := Failed)])
  }

  ghost predicate Next(e: Env, w: World, a: Action, w': World) {
    match a
    case OpenCircuit(i, registered, replied) => OpenStep(e, w, i, registered, replied, w')
    case WatchAccepted(k, delta) => WatchAcceptedStep(e, w, k, delta, w')
    case WatchFailed(k, sawCanceled, effective) => WatchFailedStep(w, k, sawCanceled, effective, w')
    case Pay(k, outExpiry) => PayStep(w, k, outExpiry, w')
    case PayReturnsPreimage(k) => PreimageStep(w, k, w')
    case PayReturnsFailed(k, effective) => PaymentFailedStep(w, k, effective, w')
    case Settle(k, replied) => SettleStep(e, w, k, replied, w')
    case Crash => w.running && w' == w.(running := false, circuits := LoseAll(w.circuits))
    case Restart => !w.running && w' == w.(running := true)
    case Lock(h, received, expiryHeight) => LockStep(w, h, received, expiryHeight, w')
    case LndCancels(h) => LndCancelStep(w, h, w')
    case PaymentSucceeds(h, preimage, fee) => SucceedStep(e, w, h, preimage, fee, w')
    case PaymentFails(h) => FailStep(w, h, w')
    case Mine => w' == w.(height := w.height + 1)
  }

  ghost predicate Run(e: Env, ws: seq<World>, acts: seq<Action>) {
    && |ws| == |acts| + 1 && Init(ws[0])
    && forall i | 0 <= i < |acts| :: Next(e, ws[i], acts[i], ws[i + 1])
  }

  ghost predicate Reachable(e: Env, w: World) {
    exists ws, acts :: Run(e, ws, acts) && ws[|acts|] == w
  }

  // ---------------------------------------------------------------- the invariant

  function PaymentOf(w: World, h: Bytes): Option<Payment> {
    if h in w.payments then Some(w.payments[h]) else None
  }

  predicate Paid(pay: Option<Payment>) {
    pay.Some? && pay.value.state.Succeeded?
  }

  /** No payment has succeeded or can still succeed. */
  predicate NeverPaid(pay: Option<Payment>) {
    pay.None? || pay.value.state.Failed?
  }

  /** How a circuit, its hold invoice and its outgoing payment fit together. */
  ghost predicate Fits(e: Env, c: Circuit, hold: Hold, pay: Option<Payment>, height: nat) {
    && hold.value == c.value && c.amount <= e.rp.maxAmountMsat
    && c.watchHeight <= height
    && (pay.Some? || c.phase.Sending? ==>
          && !hold.state.Open?
          && (hold.state.Accepted? ==> hold.state.expiryHeight == c.watchHeight + c.delta))
    && (pay.Some? ==>
          && pay.value.amount == c.amount && pay.value.feeLimit == c.budget
          && c.watchHeight <= pay.value.sentHeight <= height
          && pay.value.cltvLimit == c.cltvLimit
          && pay.value.outExpiry <= pay.value.sentHeight + c.cltvLimit)
    && (Paid(pay) ==> e.sha(pay.value.state.preimage) == c.hash && pay.value.state.fee <= pay.value.feeLimit)
    && (hold.state.Accepted? ==> hold.value <= hold.state.received)
    && (hold.state.Settled? ==>
          hold.value <= hold.state.received && Paid(pay) && pay.value.state.preimage == hold.state.preimage)
    && (hold.state == Canceled(true) ==> NeverPaid(pay) && (c.phase.Finished? || c.phase.Lost?))
    && match c.phase
       case Watching => pay.None?
       case Sending => pay.None?
       case Paying => pay.Some? && !hold.state.Settled?
       case Settling(p) => Paid(pay) && pay.value.state.preimage == p && !hold.state.Settled?
       case Finished => NeverPaid(pay) || hold.state.Settled?
       case Lost => true
  }

  /** A hold invoice whose AddInvoice reply was lost: nobody will ever settle or cancel it. */
  predicate Orphan(hold: Hold) {
    && !hold.state.Settled? && hold.state != Canceled(true)
    && (hold.state.Accepted? ==> hold.value <= hold.state.received)
  }

  ghost predicate HasCircuit(w: World, h: Bytes) {
    exists k :: 0 <= k < |w.circuits| && w.circuits[k].hash == h
  }

  ghost predicate Distinct(cs: seq<Circuit>) {
    forall j, k | 0 <= j < k < |cs| :: cs[j].hash != cs[k].hash
  }

  ghost predicate FitsAt(e: Env, w: World, k: nat)
    requires k < |w.circuits|
  {
    var c := w.circuits[k];
    c.hash in w.holds && Fits(e, c, w.holds[c.hash], PaymentOf(w, c.hash), w.height)
  }

  ghost predicate Coupled(e: Env, w: World) {
    && Distinct(w.circuits)
    && (forall k | 0 <= k < |w.circuits| :: FitsAt(e, w, k))
    && (forall h | h in w.holds :: HasCircuit(w, h) || (h !in w.payments && Orphan(w.holds[h])))
    && (forall h | h in w.payments :: HasCircuit(w, h))
  }

  // ---------------------------------------------------------------- the ledger

  function Sum(s: seq<int>): int {
    if s == [] then 0 else Sum(s[..|s| - 1]) + s[|s| - 1]
  }

  lemma {:induction false} SumUpdate(s: seq<int>, k: nat, x: int)
    requires k < |s|
    ensures Sum(s[k := x]) == Sum(s) - s[k] + x
  {
    var n := |s| - 1;
    if k < n {
      SumUpdate(s[..n], k, x);
      assert s[k := x][..n] == s[..n][k := x];
    } else {
      assert s[k := x][..n] == s[..n];
    }
  }

  lemma {:induction false} SumAtLeast(s: seq<int>, t: seq<int>)
    requires |s| == |t| && forall k | 0 <= k < |s| :: s[k] >= t[k]
    ensures Sum(s) >= Sum(t)
  {
    if s != [] {
      SumAtLeast(s[..|s| - 1], t[..|s| - 1]);
    }
  }

  lemma {:induction false} SumLinear(s: seq<int>, t: seq<int>, u: seq<int>)
    requires |s| == |t| == |u| && forall k | 0 <= k < |s| :: s[k] == t[k] - u[k]
    ensures Sum(s) == Sum(t) - Sum(u)
  {
    if s != [] {
      var n := |s| - 1;
      SumLinear(s[..n], t[..n], u[..n]);
    }
  }

  /** What a hold invoice has brought in minus what its payment has cost. */
  function Net(hold: Hold, pay: Option<Payment>): int {
    (if hold.state.Settled? then hold.state.received else 0)
    - (if Paid(pay) then pay.value.amount + pay.value.state.fee else 0)
  }

  function NetAt(w: World, k: nat): int
    requires k < |w.circuits|
  {
    var h := w.circuits[k].hash;
    if h in w.holds then Net(w.holds[h], PaymentOf(w, h)) else 0
  }

  function Nets(w: World): (s: seq<int>)
    ensures |s| == |w.circuits|
    ensures forall k | 0 <= k < |s| :: s[k] == NetAt(w, k)
  {
    seq(|w.circuits|, k requires 0 <= k < |w.circuits| => NetAt(w, k))
  }

  ghost predicate Balanced(w: World) {
    w.balance == w.start + Sum(Nets(w))
  }

  ghost predicate Inv(e: Env, w: World) {
    Coupled(e, w) && Balanced(w)
  }

  // ---------------------------------------------------------------- every step keeps it

  /** w' differs from w only in circuit k, its hold invoice, its payment and the balance. */
  ghost predicate OnlyCircuit(w: World, w': World, k: nat) {
    && k < |w.circuits| == |w'.circuits|
    && var h := w.circuits[k].hash;
    && w'.circuits[k].hash == h
    && (forall j | 0 <= j < |w.circuits| && j != k :: w'.circuits[j] == w.circuits[j])
    && w'.holds.Keys == w.holds.Keys && (forall g | g in w.holds && g != h :: w'.holds[g] == w.holds[g])
    && (forall g | g != h :: PaymentOf(w', g) == PaymentOf(w, g))
    && w'.height == w.height && w'.start == w.start
  }

  lemma HashesKept(w: World, w': World)
    requires |w.circuits| == |w'.circuits|
    requires forall j | 0 <= j < |w.circuits| :: w'.circuits[j].hash == w.circuits[j].hash
    ensures forall h | HasCircuit(w, h) :: HasCircuit(w', h)
    ensures Distinct(w.circuits) ==> Distinct(w'.circuits)
  {
    forall h | HasCircuit(w, h) ensures HasCircuit(w', h) {
      var j :| 0 <= j < |w.circuits| && w.circuits[j].hash == h;
      assert w'.circuits[j].hash == h;
    }
  }

  lemma CircuitStep(e: Env, w: World, w': World, k: nat)
    requires Inv(e, w) && OnlyCircuit(w, w', k) && FitsAt(e, w', k)
    requires w'.balance == w.balance + NetAt(w', k) - NetAt(w, k)
    ensures Inv(e, w')
  {
    HashesKept(w, w');
    assert FitsAt(e, w, k);
    var h := w.circuits[k].hash;
    assert HasCircuit(w', h) by { assert w'.circuits[k].hash == h; }
    forall j | 0 <= j < |w.circuits| ensures FitsAt(e, w', j) && (j != k ==> NetAt(w', j) == NetAt(w, j)) {
      assert FitsAt(e, w, j);
      if j != k {
        assert w.circuits[j].hash != h;
        assert PaymentOf(w', w.circuits[j].hash) == PaymentOf(w, w.circuits[j].hash);
      }
    }
    forall g | g in w'.holds ensures HasCircuit(w', g) || (g !in w'.payments && Orphan(w'.holds[g])) {
      if g != h { assert PaymentOf(w', g) == PaymentOf(w, g); }
    }
    forall g | g in w'.payments ensures HasCircuit(w', g) {
      if g != h { assert PaymentOf(w', g) == PaymentOf(w, g); }
    }
    assert Nets(w') == Nets(w)[k := NetAt(w', k)];
    SumUpdate(Nets(w), k, NetAt(w', k));
  }

  lemma OpenKeeps(e: Env, w: World, i: Inputs, registered: bool, replied: bool, w': World)
    requires Inv(e, w) && OpenStep(e, w, i, registered, replied, w')
    ensures Inv(e, w')
  {
    if w' != w {
      var q := Wrap(e.rp, i).value;
      QuoteTerms(e.rp, i, q);
      Register(e, w, w', q.q.hash, q.q.valueMsat, if replied then [NewCircuit(e.rp, i, q)] else []);
    }
  }

  /** AddInvoice succeeds: the new hash is unknown to every circuit. */
  lemma Register(e: Env, w: World, w': World, h: Bytes, value: uint64, cs: seq<Circuit>)
    requires Inv(e, w) && h !in w.holds
    requires cs == [] || (|cs| == 1 && cs[0].hash == h && cs[0].value == value && cs[0].phase.Watching?
                          && cs[0].watchHeight == 0 && cs[0].amount <= e.rp.maxAmountMsat)
    requires w' == w.(holds := w.holds[h := Hold(value, Open)], circuits := w.circuits + cs)
    ensures Inv(e, w')
  {
    var mid := w.(holds := w.holds[h := Hold(value, Open)]);
    RegisterOrphan(e, w, mid, h, value);
    if cs != [] {
      Adopt(e, mid, w', h, cs[0]);
    } else {
      assert w' == mid;
    }
  }

  lemma RegisterOrphan(e: Env, w: World, w': World, h: Bytes, value: uint64)
    requires Inv(e, w) && h !in w.holds && w' == w.(holds := w.holds[h := Hold(value, Open)])
    ensures Inv(e, w') && !HasCircuit(w', h)
  {
    HashesKept(w, w');
    forall j | 0 <= j < |w.circuits|
      ensures FitsAt(e, w', j) && NetAt(w', j) == NetAt(w, j) && w.circuits[j].hash != h
    {
      assert FitsAt(e, w, j);
    }
    assert Nets(w') == Nets(w);
  }

  lemma Adopt(e: Env, w: World, w': World, h: Bytes, c: Circuit)
    requires Inv(e, w) && h in w.holds && w.holds[h].state.Open? && !HasCircuit(w, h)
    requires c.hash == h && c.value == w.holds[h].value && c.phase.Watching? && c.watchHeight == 0
    requires c.amount <= e.rp.maxAmountMsat
    requires w' == w.(circuits := w.circuits + [c])
    ensures Inv(e, w')
  {
    var n := |w.circuits|;
    forall g | HasCircuit(w, g) ensures HasCircuit(w', g) {
      var j :| 0 <= j < n && w.circuits[j].hash == g;
      assert w'.circuits[j].hash == g;
    }
    assert HasCircuit(w', h) by { assert w'.circuits[n].hash == h; }
    AdoptedFit(e, w, w', h, c);
    NetsAppend(w, w');
  }

  lemma AdoptedFit(e: Env, w: World, w': World, h: Bytes, c: Circuit)
    requires Coupled(e, w) && h in w.holds && w.holds[h].state.Open? && !HasCircuit(w, h)
    requires c.hash == h && c.value == w.holds[h].value && c.phase.Watching? && c.watchHeight == 0
    requires c.amount <= e.rp.maxAmountMsat
    requires w' == w.(circuits := w.circuits + [c])
    ensures Distinct(w'.circuits)
    ensures forall j | 0 <= j < |w'.circuits| :: FitsAt(e, w', j)
    ensures forall j | 0 <= j < |w.circuits| :: NetAt(w', j) == NetAt(w, j)
    ensures NetAt(w', |w.circuits|) == 0
  {
    forall j | 0 <= j < |w'.circuits| ensures FitsAt(e, w', j) {
      if j < |w.circuits| { assert FitsAt(e, w, j); }
    }
  }

  lemma NetsAppend(w: World, w': World)
    requires Balanced(w) && w'.start == w.start && w'.balance == w.balance && |w'.circuits| == |w.circuits| + 1
    requires forall j | 0 <= j < |w.circuits| :: NetAt(w', j) == NetAt(w, j)
    requires NetAt(w', |w.circuits|) == 0
    ensures Balanced(w')
  {
    assert Nets(w')[..|w.circuits|] == Nets(w);
  }

  lemma WatchAcceptedKeeps(e: Env, w: World, k: nat, delta: uint64, w': World)
    requires Inv(e, w) && WatchAcceptedStep(e, w, k, delta, w')
    ensures Inv(e, w')
  {
    assert FitsAt(e, w, k);
    CircuitStep(e, w, w', k);
  }

  lemma WatchFailedKeeps(e: Env, w: World, k: nat, sawCanceled: bool, effective: bool, w': World)
    requires Inv(e, w) && WatchFailedStep(w, k, sawCanceled, effective, w')
    ensures Inv(e, w')
  {
    assert FitsAt(e, w, k);
    CircuitStep(e, w, w', k);
  }

  lemma PayKeeps(e: Env, w: World, k: nat, outExpiry: nat, w': World)
    requires Inv(e, w) && PayStep(w, k, outExpiry, w')
    ensures Inv(e, w')
  {
    assert FitsAt(e, w, k);
    CircuitStep(e, w, w', k);
  }

  lemma PreimageKeeps(e: Env, w: World, k: nat, w': World)
    requires Inv(e, w) && PreimageStep(w, k, w')
    ensures Inv(e, w')
  {
    assert FitsAt(e, w, k);
    CircuitStep(e, w, w', k);
  }

  lemma PaymentFailedKeeps(e: Env, w: World, k: nat, effective: bool, w': World)
    requires Inv(e, w) && PaymentFailedStep(w, k, effective, w')
    ensures Inv(e, w')
  {
    assert FitsAt(e, w, k);
    CircuitStep(e, w, w', k);
  }

  lemma LockKeeps(e: Env, w: World, h: Bytes, received: nat, expiryHeight: nat, w': World)
    requires Inv(e, w) && LockStep(w, h, received, expiryHeight, w')
    ensures Inv(e, w')
  {
    if HasCircuit(w, h) {
      var k :| 0 <= k < |w.circuits| && w.circuits[k].hash == h;
      assert FitsAt(e, w, k);
      CircuitStep(e, w, w', k);
    } else {
      OrphanStep(e, w, w', h);
    }
  }

  lemma LndCancelKeeps(e: Env, w: World, h: Bytes, w': World)
    requires Inv(e, w) && LndCancelStep(w, h, w')
    ensures Inv(e, w')
  {
    if HasCircuit(w, h) {
      var k :| 0 <= k < |w.circuits| && w.circuits[k].hash == h;
      assert FitsAt(e, w, k);
      CircuitStep(e, w, w', k);
    } else {
      OrphanStep(e, w, w', h);
    }
  }

  lemma SucceedKeeps(e: Env, w: World, h: Bytes, preimage: Bytes, fee: nat, w': World)
    requires Inv(e, w) && SucceedStep(e, w, h, preimage, fee, w')
    ensures Inv(e, w')
  {
    assert HasCircuit(w, h);
    var k :| 0 <= k < |w.circuits| && w.circuits[k].hash == h;
    assert FitsAt(e, w, k);
    CircuitStep(e, w, w', k);
  }

  lemma FailKeeps(e: Env, w: World, h: Bytes, w': World)
    requires Inv(e, w) && FailStep(w, h, w')
    ensures Inv(e, w')
  {
    assert HasCircuit(w, h);
    var k :| 0 <= k < |w.circuits| && w.circuits[k].hash == h;
    assert FitsAt(e, w, k);
    CircuitStep(e, w, w', k);
  }

  lemma OrphanStep(e: Env, w: World, w': World, h: Bytes)
    requires Inv(e, w) && h in w.holds && !HasCircuit(w, h)
    requires h in w'.holds && Orphan(w'.holds[h]) && w' == w.(holds := w.holds[h := w'.holds[h]])
    ensures Inv(e, w')
  {
    HashesKept(w, w');
    forall j | 0 <= j < |w.circuits| ensures FitsAt(e, w', j) && NetAt(w', j) == NetAt(w, j) {
      assert FitsAt(e, w, j) && w.circuits[j].hash != h;
    }
    assert Nets(w') == Nets(w);
  }

  lemma CrashKeeps(e: Env, w: World, w': World)
    requires Inv(e, w) && w' == w.(running := false, circuits := LoseAll(w.circuits))
    ensures Inv(e, w')
  {
    HashesKept(w, w');
    forall j | 0 <= j < |w.circuits| ensures FitsAt(e, w', j) && NetAt(w', j) == NetAt(w, j) {
      assert FitsAt(e, w, j);
    }
    assert Nets(w') == Nets(w);
  }

  lemma SettleCircuit(e: Env, w: World, k: nat, phase: Phase)
    requires Inv(e, w) && k < |w.circuits| && w.circuits[k].phase.Settling? && (phase.Finished? || phase.Lost?)
    requires w.circuits[k].hash in w.holds && w.holds[w.circuits[k].hash].state.Accepted?
    ensures Inv(e, Move(SettleHold(w, w.circuits[k].hash, w.circuits[k].phase.preimage), k, phase))
  {
    assert FitsAt(e, w, k);
    CircuitStep(e, w, Move(SettleHold(w, w.circuits[k].hash, w.circuits[k].phase.preimage), k, phase), k);
  }

  /** SettleInvoice with the preimage the circuit's own payment returned; the reply may be lost, which is
      a panic after the fact. */
  lemma SettleKeeps(e: Env, w: World, k: nat, replied: bool, w': World)
    requires Inv(e, w) && SettleStep(e, w, k, replied, w')
    ensures Inv(e, w')
  {
    assert FitsAt(e, w, k);
    var c := w.circuits[k];
    assert e.sha(c.phase.preimage) == c.hash;
    if replied {
      SettleCircuit(e, w, k, Finished);
    } else {
      SettleCircuit(e, w, k, Lost);
      var mid := Move(SettleHold(w, c.hash, c.phase.preimage), k, Lost);
      assert LoseAll(mid.circuits) == LoseAll(w.circuits);
      CrashKeeps(e, mid, w');
    }
  }

  lemma TickKeeps(e: Env, w: World, w': World)
    requires Inv(e, w) && (w' == w.(height := w.height + 1) || w' == w.(running := true))
    ensures Inv(e, w')
  {
    HashesKept(w, w');
    forall j | 0 <= j < |w.circuits| ensures FitsAt(e, w', j) && NetAt(w', j) == NetAt(w, j) {
      assert FitsAt(e, w, j);
    }
    assert Nets(w') == Nets(w);
  }

  lemma StepKeepsInv(e: Env, w: World, a: Action, w': World)
    requires Inv(e, w) && Next(e, w, a, w')
    ensures Inv(e, w')
  {
    match a
    case OpenCircuit(i, registered, replied) => OpenKeeps(e, w, i, registered, replied, w');
    case WatchAccepted(k, delta) => WatchAcceptedKeeps(e, w, k, delta, w');
    case WatchFailed(k, sawCanceled, effective) => WatchFailedKeeps(e, w, k, sawCanceled, effective, w');
    case Pay(k, outExpiry) => PayKeeps(e, w, k, outExpiry, w');
    case PayReturnsPreimage(k) => PreimageKeeps(e, w, k, w');
    case PayReturnsFailed(k, effective) => PaymentFailedKeeps(e, w, k, effective, w');
    case Settle(k, replied) => SettleKeeps(e, w, k, replied, w');
    case Crash => CrashKeeps(e, w, w');
    case Restart => TickKeeps(e, w, w');
    case Lock(h, received, expiryHeight) => LockKeeps(e, w, h, received, expiryHeight, w');
    case LndCancels(h) => LndCancelKeeps(e, w, h, w');
    case PaymentSucceeds(h, preimage, fee) => SucceedKeeps(e, w, h, preimage, fee, w');
    case PaymentFails(h) => FailKeeps(e, w, h, w');
    case Mine => TickKeeps(e, w, w');
  }

  lemma {:induction false} InvAlongRun(e: Env, ws: seq<World>, acts: seq<Action>, n: nat)
    requires Run(e, ws, acts) && n <= |acts|
    ensures Inv(e, ws[n])
  {
    if n > 0 {
      InvAlongRun(e, ws, acts, n - 1);
      StepKeepsInv(e, ws[n - 1], acts[n - 1], ws[n]);
    } else {
      assert Nets(ws[0]) == [];
    }
  }

  lemma ReachableInv(e: Env, w: World)
    requires Reachable(e, w)
    ensures Inv(e, w)
  {
    var ws, acts :| Run(e, ws, acts) && ws[|acts|] == w;
    InvAlongRun(e, ws, acts, |acts|);
  }

  // ---------------------------------------------------------------- circuit coupling

  /** Settled and canceled are final. */
  lemma FinalStep(e: Env, w: World, a: Action, w': World, h: Bytes)
    requires Inv(e, w) && Next(e, w, a, w') && h in w.holds
    requires w.holds[h].state.Settled? || w.holds[h].state.Canceled?
    ensures h in w'.holds && w'.holds[h] == w.holds[h]
  {
  }

  lemma {:induction false} FinalAlongRun(e: Env, ws: seq<World>, acts: seq<Action>, n: nat, m: nat, h: Bytes)
    requires Run(e, ws, acts) && n <= m <= |acts| && h in ws[n].holds
    requires ws[n].holds[h].state.Settled? || ws[n].holds[h].state.Canceled?
    ensures h in ws[m].holds && ws[m].holds[h] == ws[n].holds[h]
    decreases m
  {
    if n < m {
      FinalAlongRun(e, ws, acts, n, m - 1, h);
      InvAlongRun(e, ws, acts, m - 1);
      FinalStep(e, ws[m - 1], acts[m - 1], ws[m], h);
    }
  }

  /** In every reachable state a payment hash has at most one circuit, and a settled hold invoice was
      settled with the preimage its own outgoing payment returned. */
  lemma CircuitCoupling(e: Env, w: World)
    requires Reachable(e, w)
    ensures forall j, k | 0 <= j < k < |w.circuits| :: w.circuits[j].hash != w.circuits[k].hash
    ensures forall h | h in w.holds && w.holds[h].state.Settled? ::
              && h in w.payments && w.payments[h].state.Succeeded?
              && w.payments[h].state.preimage == w.holds[h].state.preimage
              && e.sha(w.holds[h].state.preimage) == h
              && w.holds[h].value <= w.holds[h].state.received
  {
    ReachableInv(e, w);
    forall h | h in w.holds && w.holds[h].state.Settled?
      ensures h in w.payments && w.payments[h].state.Succeeded?
      ensures w.payments[h].state.preimage == w.holds[h].state.preimage
      ensures e.sha(w.holds[h].state.preimage) == h && w.holds[h].value <= w.holds[h].state.received
    {
      assert HasCircuit(w, h);
      var k :| 0 <= k < |w.circuits| && w.circuits[k].hash == h;
      assert FitsAt(e, w, k);
    }
  }

  /** A hold invoice the relay has canceled at step n has, at every later step m, no outgoing payment that
      succeeded or is still in flight. */
  lemma NeverCancelsPaid(e: Env, ws: seq<World>, acts: seq<Action>, n: nat, m: nat, h: Bytes)
    requires Run(e, ws, acts) && n <= m <= |acts|
    requires h in ws[n].holds && ws[n].holds[h].state == Canceled(true)
    ensures h !in ws[m].payments || ws[m].payments[h].state.Failed?
  {
    FinalAlongRun(e, ws, acts, n, m, h);
    InvAlongRun(e, ws, acts, m);
    assert HasCircuit(ws[m], h);
    var k :| 0 <= k < |ws[m].circuits| && ws[m].circuits[k].hash == h;
    assert FitsAt(e, ws[m], k);
  }

  // ---------------------------------------------------------------- where circuits come from

  predicate SameTerms(c: Circuit, d: Circuit) {
    && c.hash == d.hash && c.amount == d.amount && c.budget == d.budget
    && c.value == d.value && c.cltvExpiry == d.cltvExpiry
  }

  /** The action opened this circuit, on the terms wrap quoted for its input. */
  ghost predicate OpenedBy(e: Env, a: Action, c: Circuit) {
    && a.OpenCircuit? && a.inputs.decoded.Some? && Wrap(e.rp, a.inputs).Ok?
    && SameTerms(c, NewCircuit(e.rp, a.inputs, Wrap(e.rp, a.inputs).value))
  }

  lemma TermsStep(e: Env, w: World, a: Action, w': World, k: nat)
    requires Next(e, w, a, w') && k < |w'.circuits|
    ensures if k < |w.circuits| then SameTerms(w'.circuits[k], w.circuits[k]) else OpenedBy(e, a, w'.circuits[k])
  {
  }

  lemma {:induction false} CircuitsWereOpened(e: Env, ws: seq<World>, acts: seq<Action>, n: nat, k: nat)
    returns (j: nat)
    requires Run(e, ws, acts) && n <= |acts| && k < |ws[n].circuits|
    ensures j < n && OpenedBy(e, acts[j], ws[n].circuits[k])
  {
    TermsStep(e, ws[n - 1], acts[n - 1], ws[n], k);
    if k < |ws[n - 1].circuits| {
      j := CircuitsWereOpened(e, ws, acts, n - 1, k);
    } else {
      j := n - 1;
    }
  }

  /** One more step at the end of a run. */
  lemma Extend(e: Env, ws: seq<World>, acts: seq<Action>, a: Action, w: World)
    requires Run(e, ws, acts) && Next(e, ws[|acts|], a, w)
    ensures Run(e, ws + [w], acts + [a])
  {
    var ws', acts' := ws + [w], acts + [a];
    forall i | 0 <= i < |acts'| ensures Next(e, ws'[i], acts'[i], ws'[i + 1]) {
      if i < |acts| { assert Next(e, ws[i], acts[i], ws[i + 1]); }
    }
  }

  lemma FitsAlongRun(e: Env, ws: seq<World>, acts: seq<Action>, n: nat, k: nat)
    requires Run(e, ws, acts) && n <= |acts|
    ensures Distinct(ws[n].circuits) && (k < |ws[n].circuits| ==> FitsAt(e, ws[n], k))
  {
    InvAlongRun(e, ws, acts, n);
  }


  // ---------------------------------------------------------------- the buyer's money is released

  /** The step calls CancelInvoice for circuit k: its payment failed, or watching failed and the invoice was not
      seen canceled. */
  predicate CallsCancel(a: Action, k: nat) {
    (a.PayReturnsFailed? && a.k == k) || (a.WatchFailed? && a.k == k && !a.sawCanceled)
  }

  predicate Pending(hold: Hold) {
    hold.state.Open? || hold.state.Accepted?
  }

  lemma CancelStep(e: Env, w: World, a: Action, w': World, k: nat)
    requires Next(e, w, a, w') && CallsCancel(a, k) && a.effective
    ensures k < |w.circuits| && w.circuits[k].hash in w.holds && w.circuits[k].hash in w'.holds
    ensures Pending(w.holds[w.circuits[k].hash]) ==> w'.holds[w.circuits[k].hash].state == Canceled(true)
  {
  }

  /** In every run: once the relay has called CancelInvoice for a circuit and the call worked, a hold invoice that
      was open or accepted is canceled, then and ever after. */
  lemma CanceledEverAfter(e: Env, ws: seq<World>, acts: seq<Action>, n: nat, m: nat, k: nat)
    requires Run(e, ws, acts) && n < m <= |acts| && CallsCancel(acts[n], k) && acts[n].effective
    ensures k < |ws[n].circuits| && ws[n].circuits[k].hash in ws[n].holds
    ensures var h := ws[n].circuits[k].hash;
            Pending(ws[n].holds[h]) ==> h in ws[m].holds && ws[m].holds[h].state == Canceled(true)
  {
    CancelStep(e, ws[n], acts[n], ws[n + 1], k);
    var h := ws[n].circuits[k].hash;
    if Pending(ws[n].holds[h]) {
      FinalAlongRun(e, ws, acts, n + 1, m, h);
    }
  }

  /** And it does call: a running circuit whose payment has failed can take the step that cancels its hold
      invoice and ends it. */
  lemma FailedCanCancel(e: Env, w: World, k: nat) returns (w': World)
    requires Inv(e, w) && AtPhase(w, k) && w.circuits[k].phase.Paying? && w.circuits[k].hash in w.payments
    requires w.payments[w.circuits[k].hash].state.Failed?
    ensures Next(e, w, PayReturnsFailed(k, true), w') && w'.circuits[k].phase.Finished?
    ensures !Pending(w'.holds[w.circuits[k].hash])
  {
    assert FitsAt(e, w, k);
    var h := w.circuits[k].hash;
    w' := Move(w, k, Finished).(holds := w.holds[h := CancelHold(w.holds[h], true)]);
  }

  /** A circuit that has run to its end and whose hold invoice still holds the buyer's money. */
  ghost predicate Unreleased(w: World, k: nat) {
    && k < |w.circuits| && w.circuits[k].phase.Finished?
    && w.circuits[k].hash in w.holds && Pending(w.holds[w.circuits[k].hash])
  }

  lemma ReleaseStep(e: Env, w: World, a: Action, w': World, k: nat)
    requires Next(e, w, a, w') && Distinct(w.circuits) && (k < |w.circuits| ==> FitsAt(e, w, k)) && Unreleased(w', k)
    ensures Unreleased(w, k) || (CallsCancel(a, k) && !a.effective)
  {
  }

  ghost predicate FailedCancel(acts: seq<Action>, n: nat, k: nat)
    requires n <= |acts|
  {
    exists j :: 0 <= j < n && CallsCancel(acts[j], k) && !acts[j].effective
  }

  lemma {:induction false} ReleasedUnless(ws: seq<World>, acts: seq<Action>, n: nat, k: nat)
    requires |ws| == |acts| + 1 && n <= |acts| && !Unreleased(ws[0], k)
    requires forall i | 0 <= i < n && Unreleased(ws[i + 1], k) ::
               Unreleased(ws[i], k) || (CallsCancel(acts[i], k) && !acts[i].effective)
    ensures Unreleased(ws[n], k) ==> FailedCancel(acts, n, k)
  {
    if n > 0 {
      ReleasedUnless(ws, acts, n - 1, k);
    }
  }

  /** In every run: a circuit that has run to its end leaves its hold invoice open or accepted only if a call of
      CancelInvoice for it failed. */
  lemma FinishedReleases(e: Env, ws: seq<World>, acts: seq<Action>, n: nat, k: nat)
    requires Run(e, ws, acts) && n <= |acts|
    ensures Unreleased(ws[n], k) ==> FailedCancel(acts, n, k)
  {
    forall i | 0 <= i < n && Unreleased(ws[i + 1], k)
      ensures Unreleased(ws[i], k) || (CallsCancel(acts[i], k) && !acts[i].effective)
    {
      FitsAlongRun(e, ws, acts, i, k);
      ReleaseStep(e, ws[i], acts[i], ws[i + 1], k);
    }
    ReleasedUnless(ws, acts, n, k);
  }

  // ---------------------------------------------------------------- a panic ends every circuit

  /** A crash, or the panic after a SettleInvoice without a reply. */
  predicate Panics(a: Action) {
    a.Crash? || (a.Settle? && !a.replied)
  }

  lemma PanicStep(e: Env, w: World, a: Action, w': World, k: nat)
    requires Next(e, w, a, w') && k < |w.circuits|
    ensures k < |w'.circuits|
    ensures w.circuits[k].phase.Lost? || (Panics(a) && !w.circuits[k].phase.Finished?) ==> w'.circuits[k].phase.Lost?
  {
  }

  lemma {:induction false} PanicEndsCircuits(e: Env, ws: seq<World>, acts: seq<Action>, n: nat, m: nat, k: nat)
    requires Run(e, ws, acts) && n < m <= |acts| && Panics(acts[n])
    requires k < |ws[n].circuits| && !ws[n].circuits[k].phase.Finished?
    ensures k < |ws[m].circuits| && ws[m].circuits[k].phase.Lost? && !ws[n + 1].running
    decreases m
  {
    assert Next(e, ws[n], acts[n], ws[n + 1]);
    if n + 1 < m {
      PanicEndsCircuits(e, ws, acts, n, m - 1, k);
    }
    PanicStep(e, ws[m - 1], acts[m - 1], ws[m], k);
  }
}
