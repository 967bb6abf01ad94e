/** Two runs of the whole system, for any hash function and any token: one in which the buyer of a paid token
    gets in, and one in which the same token is refused because its invoice settled while the challenger was
    down. */
module EndToEndRuns {
  import opened Words
  import opened Caveats
  import opened Identifiers
  import opened InvoiceCache
  import opened Mint
  import opened EndToEnd
  import opened RelayWrap
  import RelayCircuits
  import RelayFunds
  import InvoiceWait

  // ---------------------------------------------------------------- building runs

  lemma Grow(e: Env, ss: seq<System>, acts: seq<Action>, a: Action, s: System)
    requires Run(e, ss, acts) && Next(e, ss[|acts|], a, s)
    ensures Run(e, ss + [s], acts + [a])
  {
    var ss', acts' := ss + [s], acts + [a];
    forall i | 0 <= i < |acts'| ensures Next(e, ss'[i], acts'[i], ss'[i + 1]) {
      if i < |acts| { assert Next(e, ss[i], acts[i], ss[i + 1]); }
    }
  }

  lemma NothingSettled(s: System)
    requires Dated(s) && RelayFunds.NoneSettled(s.world)
    ensures s.settled == map[]
  {
    assert forall h :: h !in s.settled;
  }

  lemma LiftStep(e: Env, s: System, b: RelayCircuits.Action, w: RelayCircuits.World) returns (s': System)
    requires RelayCircuits.Next(e.relay, s.world, b, w) && s.settled == map[]
    ensures Next(e, s, RelayOrLnd(b, 1), s') && s' == s.(world := w, settled := s'.settled)
    ensures forall h | h in s'.settled :: s'.settled[h] == Receipt(s.now / SECOND, 1)
  {
    s' := s.(world := w, settled := Stamped(s, w, 1));
  }

  /** Steps p to q of a relay run, as steps of the system. */
  lemma {:induction false} Lift(e: Env, ss: seq<System>, acts: seq<Action>, ws: seq<RelayCircuits.World>,
                                bs: seq<RelayCircuits.Action>,
                                p: nat, q: nat) returns (ss': seq<System>, acts': seq<Action>)
    requires Run(e, ss, acts) && RelayCircuits.Run(e.relay, ws, bs) && p < q <= |bs| && ss[|acts|].world == ws[p]
    requires forall j | p <= j < q :: RelayFunds.NoneSettled(ws[j])
    ensures Run(e, ss', acts') && |acts'| == |acts| + q - p && ss <= ss' && acts <= acts'
    ensures ss'[|acts'|] == ss[|acts|].(world := ws[q], settled := ss'[|acts'|].settled)
    ensures forall h | h in ss'[|acts'|].settled :: ss'[|acts'|].settled[h] == Receipt(ss[|acts|].now / SECOND, 1)
    decreases q
  {
    if p < q - 1 {
      ss', acts' := Lift(e, ss, acts, ws, bs, p, q - 1);
    } else {
      ss', acts' := ss, acts;
    }
    var s := ss'[|acts'|];
    InvAlongRun(e, ss', acts', |acts'|);
    NothingSettled(s);
    assert RelayCircuits.Next(e.relay, ws[q - 1], bs[q - 1], ws[q]);
    var s' := LiftStep(e, s, bs[q - 1], ws[q]);
    Grow(e, ss', acts', RelayOrLnd(bs[q - 1], 1), s');
    ss', acts' := ss' + [s'], acts' + [RelayOrLnd(bs[q - 1], 1)];
  }

  /** A token that MintL402 makes for the hold invoice of a circuit. */
  datatype Order = Order(services: seq<Service>, inputs: MintInputs, request: string, recipient: string, price: int)

  ghost predicate Orders(e: Env, o: Order, h: Bytes) {
    && |h| == 32 && TopPrice(o.services, o.recipient, o.price)
    && o.inputs.challenge(o.recipient, o.price) == Some((o.request, h))
    && o.inputs.tokenID.Some? && o.inputs.secret.Some? && !o.inputs.insertFails && o.inputs.secret.value !in e.keys
    && Restricts(o.services, o.inputs)
  }

  ghost function TokenOf(o: Order, h: Bytes32): Issue
    requires o.inputs.tokenID.Some? && o.inputs.secret.Some? && Restricts(o.services, o.inputs)
  {
    NewIssue(o.services, o.inputs, h)
  }

  lemma FirstMint(e: Env, s: System, o: Order, h: Bytes32) returns (a: Action, s': System)
    requires Orders(e, o, h) && s.rows == [] && s.issued == []
    ensures Next(e, s, a, s') && !a.StartChallenger? && !a.Update?
    ensures s' == s.(rows := [NewRow(e.relay.sha, o.inputs, h)], issued := [TokenOf(o, h)])
  {
    var i := TokenOf(o, h);
    s' := s.(rows := [NewRow(e.relay.sha, o.inputs, h)], issued := [i]);
    a := MintToken(o.services, o.inputs, Some((i.mac, o.request)));
    assert MintedFor(e.relay.sha, o.services, o.inputs, o.inputs.challenge(o.recipient, o.price), s.rows, s.issued,
                     s'.rows, s'.issued, Some((i.mac, o.request)));
  }

  function Beginning(start: int): System {
    System(RelayFunds.FreshWorld(start), map[], 0, [], 0,
           InvoiceWait.State([map[]], None, InvoiceWait.Receiving, []), [], [])
  }

  /** Where both runs part: the invoice is relayed, the token minted, the hold invoice settled, and the
      challenger has not heard of it. */
  ghost predicate PaidFor(e: Env, s: System, l: RelayFunds.Life, o: Order) {
    var h := l.q.q.hash;
    && |h| == 32 && o.inputs.tokenID.Some? && o.inputs.secret.Some? && Restricts(o.services, o.inputs)
    && s.world.holds.Keys == {h} && IsSettled(s.world, h) && h in s.settled && s.settled[h] == Receipt(0, 1)
    && s == Beginning(0).(world := s.world, settled := s.settled,
                          rows := [NewRow(e.relay.sha, o.inputs, h)], issued := [TokenOf(o, h)])
  }

  /** The invoice relayed and the token minted. */
  lemma OrderedRun(e: Env, l: RelayFunds.Life, o: Order, ws: seq<RelayCircuits.World>, bs: seq<RelayCircuits.Action>)
    returns (ss: seq<System>, acts: seq<Action>)
    requires Orders(e, o, l.q.q.hash) && RelayCircuits.Run(e.relay, ws, bs) && |bs| == 7
    requires ws[0] == RelayFunds.FreshWorld(0) && RelayFunds.NoneSettled(ws[0])
    ensures Run(e, ss, acts) && |acts| == 2
    ensures ss[2] == Beginning(0).(world := ws[1], settled := ss[2].settled,
                                   rows := [NewRow(e.relay.sha, o.inputs, l.q.q.hash)],
                                   issued := [TokenOf(o, l.q.q.hash)])
  {
    ss, acts := [Beginning(0)], [];
    assert Run(e, ss, acts);
    ss, acts := Lift(e, ss, acts, ws, bs, 0, 1);
    var a, s := FirstMint(e, ss[1], o, l.q.q.hash);
    Grow(e, ss, acts, a, s);
    ss, acts := ss + [s], acts + [a];
  }

  lemma PaidRun(e: Env, l: RelayFunds.Life, o: Order) returns (ss: seq<System>, acts: seq<Action>)
    requires RelayFunds.Lives(e.relay, RelayFunds.FreshWorld(0), l) && Orders(e, o, l.q.q.hash)
    ensures Run(e, ss, acts) && |acts| == 8 && PaidFor(e, ss[8], l, o)
  {
    var ws, bs := RelayFunds.SettlingRun(e.relay, l, 0);
    ss, acts := OrderedRun(e, l, o, ws, bs);
    ss, acts := Lift(e, ss, acts, ws, bs, 1, 7);
    InvAlongRun(e, ss, acts, 8);
    PaidBy(e, ss[8], ws[7], l, o);
  }

  lemma PaidBy(e: Env, s: System, w: RelayCircuits.World, l: RelayFunds.Life, o: Order)
    requires Dated(s) && Orders(e, o, l.q.q.hash) && l.i.decoded.Some? && RelayFunds.SettledAlone(e.relay, w, l, 0)
    requires s == Beginning(0).(world := w, settled := s.settled,
                                rows := [NewRow(e.relay.sha, o.inputs, l.q.q.hash)], issued := [TokenOf(o, l.q.q.hash)])
    requires forall h | h in s.settled :: s.settled[h] == Receipt(0, 1)
    ensures PaidFor(e, s, l, o)
  {
    assert IsSettled(s.world, l.q.q.hash);
  }

  /** The invoice as lnd reports it then. */
  function Report(h: Bytes): Event {
    Event(Invoice(Some(h), 1, 1, SETTLED, 0, 0, 0), 0, false)
  }

  lemma ReportTrue(e: Env, s: System, l: RelayFunds.Life, o: Order)
    requires PaidFor(e, s, l, o)
    ensures Truthful(s, Report(l.q.q.hash).invoice) && Lists(s, [Report(l.q.q.hash)])
  {
    var h := l.q.q.hash;
    assert [Report(h)][0].invoice.rHash == Some(h);
  }

  // ---------------------------------------------------------------- refused

  lemma CachesReport(h: Bytes32)
    ensures Caches([Report(h)], map[], map[h := SETTLED])
    ensures IsMaximum([Report(h)], SettleIndexOf, 1)
  {
    var es := [Report(h)];
    assert es[..0] == [];
    forall g ensures LastListed(es, g) == if g == h then Some(SETTLED) else None {
      assert LastListed([], g) == None;
    }
    assert es[0].invoice.rHash.Some? && SettleIndexOf(es[0]) == 1;
  }

  /** The creator is paid, the cache says SETTLED, the store knows the token's secret, and the settlement is
      missed. */
  ghost predicate DownFor(e: Env, s: System, l: RelayFunds.Life, o: Order) {
    var h := l.q.q.hash;
    && |h| == 32 && o.inputs.tokenID.Some? && o.inputs.secret.Some? && Restricts(o.services, o.inputs)
    && CreatorPaid(e.relay, s.world, h) && s.wait.versions == [map[h := SETTLED]]
    && SecretOf(s.rows, e.relay.sha(TokenOf(o, h).mac.id)) == o.inputs.secret && s.issued == [TokenOf(o, h)]
    && Missed(s, h)
  }

  /** The challenger starts after the settlement. By SettledWhileDownIsRefused no later call of Accept lets the
      token in. */
  lemma SettledWhileDown(e: Env, l: RelayFunds.Life, o: Order) returns (ss: seq<System>, acts: seq<Action>)
    requires RelayFunds.Lives(e.relay, RelayFunds.FreshWorld(0), l) && Orders(e, o, l.q.q.hash)
    ensures Run(e, ss, acts) && |acts| == 9 && acts[8].StartChallenger? && DownFor(e, ss[9], l, o)
  {
    ss, acts := PaidRun(e, l, o);
    ss, acts := StartAfter(e, ss, acts, l, o);
  }

  lemma StartAfter(e: Env, ss: seq<System>, acts: seq<Action>, l: RelayFunds.Life, o: Order)
    returns (ss': seq<System>, acts': seq<Action>)
    requires Run(e, ss, acts) && |acts| == 8 && PaidFor(e, ss[8], l, o)
    ensures Run(e, ss', acts') && |acts'| == 9 && acts'[8].StartChallenger? && DownFor(e, ss'[9], l, o)
  {
    var s' := Started(e, ss[8], l, o);
    Grow(e, ss, acts, StartChallenger([Report(l.q.q.hash)]), s');
    ss', acts' := ss + [s'], acts + [StartChallenger([Report(l.q.q.hash)])];
    DownAt(e, ss', acts', l, o);
  }

  lemma DownAt(e: Env, ss: seq<System>, acts: seq<Action>, l: RelayFunds.Life, o: Order)
    requires Run(e, ss, acts) && |acts| == 9 && PaidFor(e, ss[8], l, o)
    requires acts[8] == StartChallenger([Report(l.q.q.hash)])
    requires ss[9].wait.versions == [map[l.q.q.hash := SETTLED]] && ss[9].rows == ss[8].rows
    requires ss[9].issued == ss[8].issued
    requires ss[9].world == ss[8].world
    ensures DownFor(e, ss[9], l, o)
  {
    MissedAtStart(e, ss, acts, 8, l.q.q.hash);
    PaidEverAfter(e, ss, acts, 9, 9, l.q.q.hash);
    SecretKnown(e, ss[9].rows, o, l.q.q.hash);
  }

  lemma Started(e: Env, s: System, l: RelayFunds.Life, o: Order) returns (s': System)
    requires PaidFor(e, s, l, o)
    ensures Next(e, s, StartChallenger([Report(l.q.q.hash)]), s')
    ensures s' == s.(wait := InvoiceWait.State([map[l.q.q.hash := SETTLED]], None, InvoiceWait.Receiving, []),
                     from := 1)
  {
    ReportTrue(e, s, l, o);
    CachesReport(l.q.q.hash);
    s' := s.(wait := InvoiceWait.State([map[l.q.q.hash := SETTLED]], None, InvoiceWait.Receiving, []), from := 1);
    assert StartStep(s, [Report(l.q.q.hash)], s');
  }

  lemma SecretKnown(e: Env, rows: seq<Row>, o: Order, h: Bytes32)
    requires o.inputs.tokenID.Some? && o.inputs.secret.Some? && Restricts(o.services, o.inputs)
    requires |rows| == 1 && rows[0] == NewRow(e.relay.sha, o.inputs, h).(settledAt := rows[0].settledAt)
    ensures SecretOf(rows, e.relay.sha(TokenOf(o, h).mac.id)) == o.inputs.secret
  {
    NewIssueWell(o.services, o.inputs, h);
    SecretFound(rows, 0);
  }

  // ---------------------------------------------------------------- let in

  lemma {:induction false} LiftWait(e: Env, ss: seq<System>, acts: seq<Action>, ts: seq<InvoiceWait.State>,
                                    bs: seq<InvoiceWait.Action>,
                                    q: nat) returns (ss': seq<System>, acts': seq<Action>)
    requires Run(e, ss, acts) && WaitRun(ts, bs) && q <= |bs| && ss[|acts|].wait == ts[0]
    ensures Run(e, ss', acts') && |acts'| == |acts| + q && ss <= ss' && acts <= acts'
    ensures ss'[|acts'|] == ss[|acts|].(wait := ts[q])
  {
    if q == 0 {
      ss', acts' := ss, acts;
    } else {
      ss', acts' := LiftWait(e, ss, acts, ts, bs, q - 1);
      var s := ss'[|acts'|].(wait := ts[q]);
      assert InvoiceWait.Next(ts[q - 1], bs[q - 1], ts[q]);
      Grow(e, ss', acts', Wait(bs[q - 1]), s);
      ss', acts' := ss' + [s], acts' + [Wait(bs[q - 1])];
    }
  }

  function Asked(h: Bytes32, pc: InvoiceWait.WaitPc): InvoiceWait.Call {
    InvoiceWait.Call(h, SETTLED, 2, pc, InvoiceWait.Selecting, false, pc == InvoiceWait.Finished,
                     if pc == InvoiceWait.AtLock then None else Some(SETTLED),
                     if pc == InvoiceWait.AtLock then 0 else 1)
  }

  function Timed(h: Bytes32, timer: InvoiceWait.TimerPc): InvoiceWait.Call {
    Asked(h, InvoiceWait.Finished).(timer := timer,
      timeoutReached := timer in {InvoiceWait.Flagged, InvoiceWait.TimerUnlocking, InvoiceWait.TimerDone})
  }

  function Waits(h: Bytes32, mutex: Option<InvoiceWait.Thread>, c: InvoiceWait.Call): InvoiceWait.State {
    InvoiceWait.State([map[], map[h := SETTLED]], mutex, InvoiceWait.Receiving, [c])
  }

  ghost predicate WaitRun(ts: seq<InvoiceWait.State>, bs: seq<InvoiceWait.Action>) {
    && |ts| == |bs| + 1
    && forall j | 0 <= j < |bs| :: InvoiceWait.Next(ts[j], bs[j], ts[j + 1]) && !bs[j].ReaderUpdate?
  }

  function Noted(h: Bytes32): InvoiceWait.State {
    InvoiceWait.State([map[], map[h := SETTLED]], Some(InvoiceWait.Reader), InvoiceWait.Updated, [])
  }

  /** From the reader's update to the return of a call that asks for SETTLED: the states and the steps. */
  function CallState(h: Bytes32, j: nat): InvoiceWait.State {
    var waiter, timer := Some(InvoiceWait.Waiter(0)), Some(InvoiceWait.Timer(0));
    match j
    case 0 => Noted(h)
    case 1 => Noted(h).(reader := InvoiceWait.ReaderUnlocking)
    case 2 => Noted(h).(reader := InvoiceWait.Receiving, mutex := None)
    case 3 => Waits(h, None, Asked(h, InvoiceWait.AtLock))
    case 4 => Waits(h, waiter, Asked(h, InvoiceWait.Checking))
    case 5 => Waits(h, waiter, Asked(h, InvoiceWait.Leaving))
    case 6 => Waits(h, None, Asked(h, InvoiceWait.Closing))
    case 7 => Waits(h, None, Timed(h, InvoiceWait.Selecting))
    case 8 => Waits(h, None, Timed(h, InvoiceWait.TimerAtLock))
    case 9 => Waits(h, timer, Timed(h, InvoiceWait.TimerLocked))
    case 10 => Waits(h, timer, Timed(h, InvoiceWait.Flagged))
    case 11 => Waits(h, timer, Timed(h, InvoiceWait.TimerUnlocking))
    case _ => Waits(h, None, Timed(h, InvoiceWait.TimerDone))
  }

  function CallAction(h: Bytes32, j: nat): InvoiceWait.Action {
    match j
    case 0 => InvoiceWait.ReaderBroadcast
    case 1 => InvoiceWait.ReaderUnlock
    case 2 => InvoiceWait.NewCall(h, SETTLED)
    case 3 => InvoiceWait.WaiterLock(0)
    case 4 => InvoiceWait.WaiterDecide(0)
    case 5 => InvoiceWait.WaiterUnlock(0)
    case 6 => InvoiceWait.WaiterClose(0)
    case 7 => InvoiceWait.TimerFire(0)
    case 8 => InvoiceWait.TimerLock(0)
    case 9 => InvoiceWait.TimerFlag(0)
    case 10 => InvoiceWait.TimerBroadcast(0)
    case _ => InvoiceWait.TimerUnlock(0)
  }

  lemma ReaderSteps(h: Bytes32, j: nat)
    requires j < 3
    ensures InvoiceWait.Next(CallState(h, j), CallAction(h, j), CallState(h, j + 1))
  {
    assert InvoiceWait.WakeAll([]) == [];
  }

  lemma WaiterSteps(h: Bytes32, j: nat)
    requires 3 <= j < 7
    ensures InvoiceWait.Next(CallState(h, j), CallAction(h, j), CallState(h, j + 1))
  {
  }

  lemma TimerSteps(h: Bytes32, j: nat)
    requires 7 <= j < 12
    ensures InvoiceWait.Next(CallState(h, j), CallAction(h, j), CallState(h, j + 1))
  {
    var c := Timed(h, InvoiceWait.TimerUnlocking);
    assert InvoiceWait.WakeAll([c]) == [c];
  }

  lemma CallRun(h: Bytes32) returns (ts: seq<InvoiceWait.State>, bs: seq<InvoiceWait.Action>)
    ensures WaitRun(ts, bs) && |bs| == 12 && ts[0] == Noted(h)
    ensures ts[12] == Waits(h, None, Timed(h, InvoiceWait.TimerDone))
  {
    ts, bs := seq(13, j requires j >= 0 => CallState(h, j)), seq(12, j requires j >= 0 => CallAction(h, j));
    forall j | 0 <= j < 12 ensures InvoiceWait.Next(ts[j], bs[j], ts[j + 1]) && !bs[j].ReaderUpdate? {
      if j < 3 { ReaderSteps(h, j); } else if j < 7 { WaiterSteps(h, j); } else { TimerSteps(h, j); }
    }
  }

  /** lnd makes a snapshot, and the stream reader takes the lock to record it. */
  ghost predicate Hearing(e: Env, s: System, l: RelayFunds.Life, o: Order) {
    var h := l.q.q.hash;
    && |h| == 32 && o.inputs.tokenID.Some? && o.inputs.secret.Some?
    && s.rows == [NewRow(e.relay.sha, o.inputs, h)] && s.now == 0 && s.from == 0 && Report(h).invoice in s.log
    && s.wait == InvoiceWait.State([map[]], Some(InvoiceWait.Reader), InvoiceWait.ReaderLocked, [])
  }

  lemma Heard(e: Env, ss: seq<System>, acts: seq<Action>, l: RelayFunds.Life, o: Order)
    returns (ss': seq<System>, acts': seq<Action>)
    requires Run(e, ss, acts) && |acts| == 8 && PaidFor(e, ss[8], l, o)
    ensures Run(e, ss', acts') && |acts'| == 10 && Hearing(e, ss'[10], l, o)
  {
    var i, s0 := Report(l.q.q.hash).invoice, ss[8];
    ReportTrue(e, s0, l, o);
    var s1 := s0.(log := s0.log + [i]);
    Grow(e, ss, acts, Snapshot(i), s1);
    var s2 := s1.(wait := s1.wait.(reader := InvoiceWait.ReaderLocked, mutex := Some(InvoiceWait.Reader)));
    Grow(e, ss + [s1], acts + [Snapshot(i)], Wait(InvoiceWait.ReaderLock), s2);
    ss', acts' := ss + [s1] + [s2], acts + [Snapshot(i)] + [Wait(InvoiceWait.ReaderLock)];
  }

  /** It records the settlement. */
  ghost predicate HeardOf(e: Env, s: System, l: RelayFunds.Life, o: Order) {
    var h := l.q.q.hash;
    && |h| == 32 && o.inputs.tokenID.Some? && o.inputs.secret.Some?
    && s.rows == [NewRow(e.relay.sha, o.inputs, h).(settledAt := Some(0))] && s.now == 0 && s.wait == Noted(h)
  }

  lemma Recorded(e: Env, ss: seq<System>, acts: seq<Action>, l: RelayFunds.Life, o: Order)
    returns (ss': seq<System>, acts': seq<Action>)
    requires Run(e, ss, acts) && |acts| == 10 && Hearing(e, ss[10], l, o)
    ensures Run(e, ss', acts') && |acts'| == 11 && HeardOf(e, ss'[11], l, o)
  {
    var h, s2 := l.q.q.hash, ss[10];
    var s3 := s2.(wait := s2.wait.(reader := InvoiceWait.Updated, versions := [map[], map[h := SETTLED]]),
                  rows := [s2.rows[0].(settledAt := Some(0))]);
    UpdateRecords(s2, h, s3);
    Grow(e, ss, acts, Action.Update(Report(h), map[h := SETTLED]), s3);
    ss', acts' := ss + [s3], acts + [Action.Update(Report(h), map[h := SETTLED])];
  }

  lemma UpdateRecords(s: System, h: Bytes32, s': System)
    requires Report(h).invoice in s.log && s.now == 0 && s.from == 0 && |s.rows| == 1 && s.rows[0].paymentHash == h
    requires s.wait == InvoiceWait.State([map[]], Some(InvoiceWait.Reader), InvoiceWait.ReaderLocked, [])
    requires s' == s.(wait := s.wait.(reader := InvoiceWait.Updated, versions := [map[], map[h := SETTLED]]),
                      rows := [s.rows[0].(settledAt := Some(0))])
    ensures UpdateStep(s, Report(h), map[h := SETTLED], s')
  {
    var ev, next := Report(h), map[h := SETTLED];
    forall g ensures Lookup(next, g) == OrElse(LastEvent([ev], g), Lookup(map[], g)) {
      OneEvent(ev, g, None);
    }
    OneEvent(ev, h, s.rows[0].settledAt);
    assert [map[]] + [next] == [map[], next];
  }

  /** The token allows the target now. */
  ghost predicate Admits(o: Order, h: Bytes32, target: string, nowSec: int)
    requires o.inputs.tokenID.Some? && o.inputs.secret.Some? && Restricts(o.services, o.inputs)
  {
    o.services != [] ==>
      && ChainHolds(ServicesSatisfier(target),
                    [ServicesCaveat(o.services)] + Chain(Limits(TokenOf(o, h)), COND_SERVICES))
      && ChainHolds(TimeoutSatisfier(target, nowSec), Chain(Limits(TokenOf(o, h)), target + TIMEOUT_SUFFIX))
  }

  lemma TokenVerifies(e: Env, rows: seq<Row>, o: Order, h: Bytes32, preimage: Bytes, target: string, nowSec: int)
    requires o.inputs.tokenID.Some? && o.inputs.secret.Some? && Restricts(o.services, o.inputs)
    requires |rows| == 1 && rows[0] == NewRow(e.relay.sha, o.inputs, h).(settledAt := rows[0].settledAt)
    requires e.relay.sha(preimage) == h && Admits(o, h, target, nowSec)
    ensures Verifies(e.relay.sha, rows, TokenOf(o, h).mac, preimage, target, nowSec)
  {
    var i := TokenOf(o, h);
    NewIssueWell(o.services, o.inputs, h);
    SecretKnown(e, rows, o, h);
    if o.services == [] {
      NoServicesUnrestricted(e.relay.sha, rows, i, preimage, target, nowSec);
    } else {
      IssueVerifiesIff(e.relay.sha, rows, i, preimage, target, nowSec);
    }
  }

  /** The buyer of a paid token gets in: whatever the invoice, the token and the target it allows, there is a
      run in which Accept grants the request. */
  lemma PaidIsAccepted(e: Env, l: RelayFunds.Life, o: Order, target: string)
    returns (ss: seq<System>, acts: seq<Action>, at: Reads, v: View)
    requires RelayFunds.Lives(e.relay, RelayFunds.FreshWorld(0), l) && Orders(e, o, l.q.q.hash) && |l.preimage| == 32
    requires Admits(o, l.q.q.hash, target, UnixTime(0))
    ensures Run(e, ss, acts) && Accepted(e, ss, at, TokenOf(o, l.q.q.hash).mac, l.preimage, target, v)
  {
    var h := l.q.q.hash;
    ss, acts := PaidRun(e, l, o);
    ss, acts := Heard(e, ss, acts, l, o);
    ss, acts := Recorded(e, ss, acts, l, o);
    var ts, bs := CallRun(h);
    ss, acts := LiftWait(e, ss, acts, ts, bs, 12);
    var s := ss[23];
    at, v := Reads(23, 23, 0, 23, 23), View(s.rows, UnixTime(0), Some(SETTLED), Some(Some(0)), 0);
    TokenVerifies(e, s.rows, o, h, l.preimage, target, UnixTime(0));
    assert s.rows[0].paymentHash == h && v.settledAt == Some(s.rows[0].settledAt);
    assert Queried(s.rows, h, v.settledAt);
  }

  // ---------------------------------------------------------------- an order

  /** One service at no price, and a limiter that adds nothing. */
  function OneService(name: string, h: Bytes32, secret: Bytes): Order {
    Order([Service(name, 0, "", 0)],
          MintInputs((_, _) => Some(("", h)), Some(h), Some(secret), false, Some([]), Some([]), Some([]), false),
          "", "", 0)
  }

  lemma OneServiceOrders(e: Env, name: string, h: Bytes32, secret: Bytes, nowSec: int)
    requires secret !in e.keys && name != "" && ',' !in name && ':' !in name
    ensures Orders(e, OneService(name, h, secret), h) && Admits(OneService(name, h, secret), h, name, nowSec)
  {
    var o := OneService(name, h, secret);
    NewIssueWell(o.services, o.inputs, h);
    assert o.services[0].name == name;
    OwnServicesDecide(TokenOf(o, h), name);
  }

  /** There are such invoices and tokens: with the default parameters, for any hash function, preimage and
      secret, and any delimiter-free service name. */
  lemma AnOrder(sha: Bytes -> Bytes, preimage: Bytes, secret: Bytes, name: string, nowSec: int)
    returns (e: Env, l: RelayFunds.Life, o: Order)
    requires |sha(preimage)| == 32 && name != "" && ',' !in name && ':' !in name
    ensures RelayFunds.Lives(e.relay, RelayFunds.FreshWorld(0), l) && l.preimage == preimage
    ensures l.q.q.hash == sha(preimage)
    ensures Orders(e, o, sha(preimage)) && Admits(o, sha(preimage), name, nowSec)
  {
    var h := sha(preimage);
    e, o := Env(RelayCircuits.Env(sha, DEFAULTS), {}), OneService(name, h, secret);
    l := RelayFunds.LargestLife(sha, preimage);
    OneServiceOrders(e, name, h, secret, nowSec);
  }
}
