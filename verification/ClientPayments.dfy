/** The paying client: both interceptors hold one lock for a whole call, so calls on a store run one after
    the other; within a call the process may die between any two steps, and lnd works on payments all the
    time. */
module ClientPayments {
  import opened Words
  import opened Identifiers
  import opened TokenCodec
  import opened TokenStore

  // ---------------------------------------------------------------- trackPayment

  datatype TrackEvent =
    | StatusSucceeded(preimage: Bytes32) | StatusInFlight | StatusFailed | StatusOther | TrackError | Timeout

  datatype Tracked = PaidWith(preimage: Bytes32) | FailedTerminally | Inconclusive

  /** Whatever comes first that is not an in-flight update decides. */
  function Conclusion(events: seq<TrackEvent>): Tracked {
    if events == [] then Inconclusive
    else match events[0]
      case StatusSucceeded(p) => PaidWith(p)
      case StatusFailed => FailedTerminally
      case StatusInFlight => Conclusion(events[1..])
      case _ => Inconclusive
  }

  /** Update n is the first that is not in flight. */
  ghost predicate Decides(events: seq<TrackEvent>, n: nat) {
    n < |events| && !events[n].StatusInFlight? && forall j | 0 <= j < n :: events[j].StatusInFlight?
  }

  /** What that update makes of the payment: paid, failed for good, or neither. */
  ghost predicate DecidedBy(e: TrackEvent, r: Tracked) {
    && (forall p :: r == PaidWith(p) <==> e == StatusSucceeded(p))
    && (r == FailedTerminally <==> e == StatusFailed)
  }

  /** trackPayment waits through any number of in-flight updates; the first other one decides, and without one
      nothing is concluded. */
  method TrackPayment(events: seq<TrackEvent>) returns (r: Tracked)
    ensures forall n: nat | Decides(events, n) :: DecidedBy(events[n], r)
    ensures (forall n | 0 <= n < |events| :: events[n].StatusInFlight?) ==> r == Inconclusive
    ensures r == Conclusion(events)
  {
    var i := 0;
    assert events[0..] == events;
    while i < |events|
      invariant 0 <= i <= |events| && Conclusion(events) == Conclusion(events[i..])
      invariant forall j | 0 <= j < i :: events[j].StatusInFlight?
    {
      assert events[i..][1..] == events[i + 1..];
      assert !events[i].StatusInFlight? ==> forall n: nat | Decides(events, n) :: n == i;
      match events[i]
      case StatusSucceeded(p) => return PaidWith(p);
      case StatusFailed => return FailedTerminally;
      case StatusInFlight => i := i + 1;
      case StatusOther => return Inconclusive;
      case TrackError => return Inconclusive;
      case Timeout => return Inconclusive;
    }
    r := Inconclusive;
  }

  /** The same of the function the step relation uses. */
  lemma {:induction false} ConclusionDecided(events: seq<TrackEvent>, n: nat)
    requires Decides(events, n)
    ensures DecidedBy(events[n], Conclusion(events))
  {
    if n > 0 {
      ConclusionDecided(events[1..], n - 1);
    }
  }

  lemma {:induction false} ConclusionSeen(events: seq<TrackEvent>)
    ensures Conclusion(events).PaidWith? ==> StatusSucceeded(Conclusion(events).preimage) in events
    ensures Conclusion(events).FailedTerminally? ==> StatusFailed in events
  {
    if events != [] {
      assert events[0] in events;
      ConclusionSeen(events[1..]);
    }
  }

  // ---------------------------------------------------------------- state

  datatype PayState = InFlight | Succeeded(preimage: Bytes32, amount: nat, fee: nat) | Failed

  datatype Payment = Payment(invoiceMsat: Option<nat>, feeLimitMsat: nat, state: PayState)

  /** The limits, the payment hash function, and which bytes the macaroon library takes for a macaroon. */
  datatype Config = Config(maxCostSat: nat, maxFeeSat: nat, sha: Bytes -> Bytes, parses: Bytes -> bool)

  /** Where the call that holds the lock stands. */
  datatype Stage =
    | Idle
    | Called(read: Option<Token>)
    | Tracking(token: Token)
    | Removing(token: Token)
    | Challenged
    | Ready(token: Token, invoiceMsat: Option<nat>)
    | Waiting(token: Token)

  datatype World = World(files: Files, payments: map<Bytes32, Payment>, spent: nat, stage: Stage)

  datatype Action =
    // the interceptor
    | Call(io: Io)
    | EndCall
    | PaymentRequired
    | Track(events: seq<TrackEvent>, paid: Token, io: Io)
    | RemovePending(io: Io)
    | PayInvoice(pending: Token, invoiceMsat: Option<nat>, io: Io)
    | Send(reached: bool)
    | PayReturned(paid: Token, io: Io)
    | Die
    // lnd
    | LndSucceeds(h: Bytes32, preimage: Bytes32, amount: nat, fee: nat)
    | LndFails(h: Bytes32)

  predicate Live(w: World, h: Bytes32) {
    h in w.payments && !w.payments[h].state.Failed?
  }

  /** The token with the details of its payment filled in. */
  predicate PaidToken(t: Token, preimage: Bytes32, paid: Token) {
    paid.paymentHash == t.paymentHash && paid.preimage == preimage && paid.baseMac == t.baseMac
  }

  predicate PaidWithPreimage(w: World, h: Bytes32, preimage: Bytes32) {
    h in w.payments && w.payments[h].state.Succeeded? && w.payments[h].state.preimage == preimage
  }

  predicate FailedFor(w: World, h: Bytes32) {
    h in w.payments && w.payments[h].state.Failed?
  }

  /** lnd reports only terminal states that a payment is in. */
  ghost predicate Honest(w: World, h: Bytes32, events: seq<TrackEvent>) {
    && (forall p | StatusSucceeded(p) in events :: PaidWithPreimage(w, h, p))
    && (StatusFailed in events ==> FailedFor(w, h))
  }

  /** trackPayment: what its conclusion makes the caller do. */
  ghost predicate TrackStep(w: World, events: seq<TrackEvent>, paid: Token, io: Io, w': World) {
    && w.stage.Tracking? && Honest(w, w.stage.token.paymentHash, events)
    && match Conclusion(events)
       case PaidWith(p) =>
         PaidToken(w.stage.token, p, paid) && w' == w.(files := AfterStore(w.files, paid, io), stage := Idle)
       case FailedTerminally => w' == w.(stage := Removing(w.stage.token))
       case Inconclusive => w' == w.(stage := Idle)
  }

  /** newInterceptContext reads the store once. */
  function AfterCall(fs: Files, io: Io): Stage {
    if io.readFails then Idle
    else match CurrentOf(fs)
      case Broken => Idle
      case NoToken => Called(None)
      case Found(t) => Called(Some(t))
  }

  /** The switch of handlePayment. */
  function AfterRequired(read: Option<Token>): Stage {
    if read.None? then Challenged else if IsPending(read.value) then Tracking(read.value) else Idle
  }

  predicate CostAllowed(c: Config, invoiceMsat: Option<nat>) {
    invoiceMsat.None? || invoiceMsat.value <= c.maxCostSat * 1000
  }

  ghost predicate Next(c: Config, w: World, a: Action, w': World) {
    match a
    case Call(io) => w.stage.Idle? && w' == w.(stage := AfterCall(w.files, io))
    // The call succeeded, failed for another reason, timed out, or was refused: the lock is released.
    case EndCall => w' == w.(stage := Idle)
    case PaymentRequired => w.stage.Called? && w' == w.(stage := AfterRequired(w.stage.read))
    case Track(events, paid, io) => TrackStep(w, events, paid, io, w')
    case RemovePending(io) =>
      && w.stage.Removing?
      && w' == w.(files := AfterRemove(w.files, io),
                  stage := if io.removeFails || io.dies != Never then Idle else Challenged)
    case PayInvoice(pending, invoiceMsat, io) =>
      && w.stage.Challenged? && IsPending(pending)
      && w' == if !CostAllowed(c, invoiceMsat) || !c.parses(pending.baseMac) then w.(stage := Idle)
               else
                 var files := AfterStore(w.files, pending, io);
                 w.(files := files,
                    stage := if WriteSucceeds(io) && CurrentOf(files) == Found(pending)
                             then Ready(pending, invoiceMsat) else Idle)
    case Send(reached) =>
      && w.stage.Ready?
      && var h := w.stage.token.paymentHash;
         w' == w.(stage := Waiting(w.stage.token),
                  payments := if !reached || Live(w, h) then w.payments
                              else w.payments[h := Payment(w.stage.invoiceMsat, c.maxFeeSat * 1000, InFlight)])
    case PayReturned(paid, io) =>
      && w.stage.Waiting? && PaidToken(w.stage.token, paid.preimage, paid)
      && PaidWithPreimage(w, w.stage.token.paymentHash, paid.preimage)
      && w' == w.(files := AfterStore(w.files, paid, io), stage := Idle)
    case Die => w' == w.(stage := Idle)
    case LndSucceeds(h, preimage, amount, fee) =>
      && h in w.payments && w.payments[h].state.InFlight? && fee <= w.payments[h].feeLimitMsat
      && c.sha(preimage) == h
      && (w.payments[h].invoiceMsat.Some? ==> amount == w.payments[h].invoiceMsat.value)
      && w' == w.(payments := w.payments[h := w.payments[h].(state := Succeeded(preimage, amount, fee))],
                  spent := w.spent + amount + fee)
    case LndFails(h) =>
      && h in w.payments && w.payments[h].state.InFlight?
      && w' == w.(payments := w.payments[h := w.payments[h].(state := Failed)])
  }

  ghost predicate Init(w: World) {
    w == World(Files(Absent, Absent), map[], 0, Idle)
  }

  ghost predicate Run(c: Config, ws: seq<World>, acts: seq<Action>) {
    && |ws| == |acts| + 1 && Init(ws[0])
    && forall i | 0 <= i < |acts| :: Next(c, ws[i], acts[i], ws[i + 1])
  }

  // ---------------------------------------------------------------- the invariant

  /** A live payment is remembered on disk: as the pending token, or because a paid file exists. */
  predicate Remembered(fs: Files, h: Bytes32) {
    fs.paid != Absent || (fs.pending.Holds? && fs.pending.token.paymentHash == h)
  }

  predicate Empty(fs: Files) {
    fs.paid == Absent && fs.pending == Absent
  }

  predicate OnlyPending(fs: Files, t: Token) {
    fs.paid == Absent && fs.pending == Holds(t)
  }

  ghost predicate StageOk(c: Config, w: World) {
    match w.stage
    case Idle => true
    case Called(read) => if read.None? then Empty(w.files) else CurrentOf(w.files) == Found(read.value)
    case Tracking(t) => OnlyPending(w.files, t)
    case Removing(t) => OnlyPending(w.files, t) && FailedFor(w, t.paymentHash)
    case Challenged => Empty(w.files)
    case Ready(t, invoiceMsat) =>
      && OnlyPending(w.files, t) && CostAllowed(c, invoiceMsat)
      && forall h | h in w.payments :: !Live(w, h)
    case Waiting(t) => OnlyPending(w.files, t)
  }

  predicate PaymentOk(c: Config, p: Payment) {
    && CostAllowed(c, p.invoiceMsat) && p.feeLimitMsat == c.maxFeeSat * 1000
    && (p.state.Succeeded? ==>
          && p.state.fee <= p.feeLimitMsat
          && (p.invoiceMsat.Some? ==> p.state.amount == p.invoiceMsat.value))
  }

  ghost predicate Inv(c: Config, w: World) {
    && Sound(w.files)
    && StageOk(c, w)
    && (forall h | h in w.payments :: PaymentOk(c, w.payments[h]))
    && (forall h | h in w.payments && Live(w, h) :: Remembered(w.files, h))
    && (forall g, h | g in w.payments && h in w.payments && Live(w, g) && Live(w, h) :: g == h)
    && (forall h | h in w.payments && w.payments[h].state.Succeeded? ::
          w.spent == w.payments[h].state.amount + w.payments[h].state.fee)
    && ((forall h | h in w.payments :: !w.payments[h].state.Succeeded?) ==> w.spent == 0)
  }

  /** A store operation never makes the store forget a live payment. */
  lemma StoreRemembers(fs: Files, t: Token, io: Io, h: Bytes32)
    requires Sound(fs) && Remembered(fs, h) && !IsPending(t)
    ensures Remembered(AfterStore(fs, t, io), h)
  {
  }

  /** Steps that leave files and payments alone. */
  lemma StageStep(c: Config, w: World, w': World)
    requires Inv(c, w) && w' == w.(stage := w'.stage) && StageOk(c, w')
    ensures Inv(c, w')
  {
  }

  lemma RemoveKeeps(c: Config, w: World, io: Io, w': World)
    requires Inv(c, w) && Next(c, w, RemovePending(io), w')
    ensures Inv(c, w')
  {
    StepKeepsPaid(w.files, Remove(io));
    assert forall h | h in w.payments :: !Live(w, h);
  }

  lemma PendingKeeps(c: Config, w: World, pending: Token, invoiceMsat: Option<nat>, io: Io, w': World)
    requires Inv(c, w) && Next(c, w, PayInvoice(pending, invoiceMsat, io), w')
    ensures Inv(c, w')
  {
    StepKeepsPaid(w.files, Store(pending, io));
    assert forall h | h in w.payments :: !Live(w, h);
  }

  lemma SendKeeps(c: Config, w: World, reached: bool, w': World)
    requires Inv(c, w) && Next(c, w, Send(reached), w')
    ensures Inv(c, w')
  {
    var t := w.stage.token;
    assert !Live(w, t.paymentHash);
    forall h | h in w'.payments && Live(w', h) ensures h == t.paymentHash {
      assert h == t.paymentHash || Live(w, h);
    }
  }

  lemma LndKeeps(c: Config, w: World, a: Action, w': World)
    requires Inv(c, w) && Next(c, w, a, w') && (a.LndSucceeds? || a.LndFails?)
    ensures Inv(c, w')
  {
    assert Live(w, a.h);
    forall h | h in w'.payments && Live(w', h) ensures Live(w, h) && h == a.h {}
    forall h | h in w.payments && w.payments[h].state.Succeeded?
      ensures Live(w, h) && h in w'.payments && w'.payments[h] == w.payments[h]
    {
    }
    assert a.LndSucceeds? ==> a.h in w'.payments && w'.payments[a.h].state.Succeeded?;
  }

  lemma StepKeepsInv(c: Config, w: World, a: Action, w': World)
    requires Inv(c, w) && Next(c, w, a, w')
    ensures Inv(c, w')
  {
    match a
    case Call(io) => StageStep(c, w, w');
    case EndCall => StageStep(c, w, w');
    case PaymentRequired => StageStep(c, w, w');
    case Track(events, paid, io) => TrackKeeps(c, w, events, paid, io, w');
    case RemovePending(io) => RemoveKeeps(c, w, io, w');
    case PayInvoice(pending, invoiceMsat, io) => PendingKeeps(c, w, pending, invoiceMsat, io, w');
    case Send(reached) => SendKeeps(c, w, reached, w');
    case PayReturned(paid, io) => PaidStored(c, w, paid, io, w');
    case Die => StageStep(c, w, w');
    case LndSucceeds(_, _, _, _) => LndKeeps(c, w, a, w');
    case LndFails(_) => LndKeeps(c, w, a, w');
  }

  lemma PaidStored(c: Config, w: World, paid: Token, io: Io, w': World)
    requires Inv(c, w) && w' == w.(files := AfterStore(w.files, paid, io), stage := Idle)
    requires (w.stage.Tracking? || w.stage.Waiting?) && PaidToken(w.stage.token, paid.preimage, paid)
    requires PaidWithPreimage(w, w.stage.token.paymentHash, paid.preimage)
    ensures Inv(c, w')
  {
    StepKeepsPaid(w.files, Store(paid, io));
    forall h | h in w.payments && Live(w, h) ensures Remembered(w'.files, h) {
      if !IsPending(paid) {
        StoreRemembers(w.files, paid, io, h);
      }
    }
  }

  lemma TrackKeeps(c: Config, w: World, events: seq<TrackEvent>, paid: Token, io: Io, w': World)
    requires Inv(c, w) && TrackStep(w, events, paid, io, w')
    ensures Inv(c, w')
  {
    ConclusionSeen(events);
    if Conclusion(events).PaidWith? {
      PaidStored(c, w, paid, io, w');
    } else {
      StageStep(c, w, w');
    }
  }

  lemma {:induction false} InvAlongRun(c: Config, ws: seq<World>, acts: seq<Action>, n: nat)
    requires Run(c, ws, acts) && n <= |acts|
    ensures Inv(c, ws[n])
  {
    if n > 0 {
      InvAlongRun(c, ws, acts, n - 1);
      StepKeepsInv(c, ws[n - 1], acts[n - 1], ws[n]);
    }
  }

  // ---------------------------------------------------------------- at most one payment

  /** In every state of every run at most one payment is in flight or has succeeded, and if the invoices
      paid carried an amount the client has spent at most its cost and fee limits. */
  lemma AtMostOnePayment(c: Config, ws: seq<World>, acts: seq<Action>, n: nat)
    requires Run(c, ws, acts) && n <= |acts|
    ensures forall g, h | Live(ws[n], g) && Live(ws[n], h) :: g == h
    ensures (forall h | h in ws[n].payments :: ws[n].payments[h].invoiceMsat.Some?) ==>
              ws[n].spent <= 1000 * (c.maxCostSat + c.maxFeeSat)
  {
    InvAlongRun(c, ws, acts, n);
    var w := ws[n];
    if (forall h | h in w.payments :: w.payments[h].invoiceMsat.Some?) && w.spent != 0 {
      var h :| h in w.payments && w.payments[h].state.Succeeded?;
      assert PaymentOk(c, w.payments[h]);
    }
  }

  /** What a step makes of a succeeded payment, given that no other is live. */
  lemma SucceededStays(c: Config, w: World, a: Action, w': World, h: Bytes32)
    requires Next(c, w, a, w') && h in w.payments && w.payments[h].state.Succeeded?
    requires forall g | Live(w, g) :: g == h
    ensures h in w'.payments && w'.payments[h] == w.payments[h] && w'.spent == w.spent
  {
    if a.LndSucceeds? || a.LndFails? {
      assert Live(w, a.h);
    }
  }

  lemma OnlyLive(c: Config, ws: seq<World>, acts: seq<Action>, n: nat, h: Bytes32)
    requires Run(c, ws, acts) && n <= |acts| && Live(ws[n], h)
    ensures forall g | Live(ws[n], g) :: g == h
  {
    InvAlongRun(c, ws, acts, n);
  }

  ghost predicate PaidAs(w: World, h: Bytes32, p: Payment, spent: nat) {
    h in w.payments && w.payments[h] == p && w.spent == spent
  }

  lemma PaidNext(c: Config, ws: seq<World>, acts: seq<Action>, n: nat, h: Bytes32, p: Payment, spent: nat)
    requires Run(c, ws, acts) && n < |acts| && p.state.Succeeded? && PaidAs(ws[n], h, p, spent)
    ensures PaidAs(ws[n + 1], h, p, spent)
  {
    OnlyLive(c, ws, acts, n, h);
    SucceededStays(c, ws[n], acts[n], ws[n + 1], h);
  }

  lemma {:induction false} StaysPaid(ws: seq<World>, n: nat, m: nat, h: Bytes32, p: Payment, spent: nat)
    requires n <= m < |ws| && PaidAs(ws[n], h, p, spent)
    requires forall i | n <= i < m :: PaidAs(ws[i], h, p, spent) ==> PaidAs(ws[i + 1], h, p, spent)
    ensures PaidAs(ws[m], h, p, spent)
    decreases m
  {
    if n < m {
      StaysPaid(ws, n, m - 1, h, p, spent);
    }
  }

  /** A payment that has succeeded is the last one the client ever makes on this store. */
  lemma PaidOnce(c: Config, ws: seq<World>, acts: seq<Action>, n: nat, m: nat, h: Bytes32)
    requires Run(c, ws, acts) && n <= m <= |acts|
    requires h in ws[n].payments && ws[n].payments[h].state.Succeeded?
    ensures h in ws[m].payments && ws[m].payments[h] == ws[n].payments[h] && ws[m].spent == ws[n].spent
    ensures forall g | Live(ws[m], g) :: g == h
  {
    var p, spent := ws[n].payments[h], ws[n].spent;
    forall i | n <= i < m && PaidAs(ws[i], h, p, spent) ensures PaidAs(ws[i + 1], h, p, spent) {
      PaidNext(c, ws, acts, i, h, p, spent);
    }
    StaysPaid(ws, n, m, h, p, spent);
    OnlyLive(c, ws, acts, m, h);
  }

  // ---------------------------------------------------------------- resuming

  /** Steps from any world on. */
  ghost predicate Path(c: Config, ws: seq<World>, acts: seq<Action>) {
    |ws| == |acts| + 1 && forall i | 0 <= i < |acts| :: Next(c, ws[i], acts[i], ws[i + 1])
  }

  lemma PathGrows(c: Config, ws: seq<World>, acts: seq<Action>, a: Action, w: World)
    requires Path(c, ws, acts) && Next(c, ws[|acts|], a, w)
    ensures Path(c, ws + [w], acts + [a])
  {
    var ws', acts' := ws + [w], acts + [a];
    forall i | 0 <= i < |acts'| ensures Next(c, ws'[i], acts'[i], ws'[i + 1]) {
      if i < |acts| { assert Next(c, ws[i], acts[i], ws[i + 1]); }
    }
  }

  lemma PathsJoin(c: Config, ws: seq<World>, acts: seq<Action>, vs: seq<World>, bs: seq<Action>)
    requires Path(c, ws, acts) && Path(c, vs, bs) && ws[|acts|] == vs[0]
    ensures Path(c, ws + vs[1..], acts + bs)
  {
    var us, cs := ws + vs[1..], acts + bs;
    forall i | 0 <= i < |cs| ensures Next(c, us[i], cs[i], us[i + 1]) {
      if i < |acts| {
        assert us[i] == ws[i] && us[i + 1] == ws[i + 1];
      } else {
        assert us[i] == vs[i - |acts|] && us[i + 1] == vs[i + 1 - |acts|];
      }
    }
  }

  const WORKING: Io := Io(false, Written, false, Never)

  /** A call that finds the pending token and is asked to pay. */
  lemma ToTracking(c: Config, w: World, t: Token) returns (ws: seq<World>, acts: seq<Action>)
    requires OnlyPending(w.files, t) && IsPending(t)
    ensures Path(c, ws, acts) && ws[0] == w && |acts| == 3 && ws[3] == w.(stage := Tracking(t))
  {
    var w1, w2, w3 := w.(stage := Idle), w.(stage := Called(Some(t))), w.(stage := Tracking(t));
    ws, acts := [w, w1], [EndCall];
    PathGrows(c, ws, acts, Call(WORKING), w2);
    ws, acts := ws + [w2], acts + [Call(WORKING)];
    PathGrows(c, ws, acts, PaymentRequired, w3);
    ws, acts := ws + [w3], acts + [PaymentRequired];
  }

  lemma Resume(c: Config, w: World, t: Token, preimage: Bytes32) returns (ws: seq<World>, acts: seq<Action>)
    requires OnlyPending(w.files, t) && IsPending(t) && PaidWithPreimage(w, t.paymentHash, preimage)
    requires !IsZero(preimage)
    ensures Path(c, ws, acts) && ws[0] == w && |acts| == 4
    ensures ws[4] == w.(files := Files(Holds(t.(preimage := preimage)), Absent), stage := Idle)
  {
    ws, acts := ToTracking(c, w, t);
    var paid, events := t.(preimage := preimage), [StatusSucceeded(preimage)];
    var w4 := w.(files := Files(Holds(paid), Absent), stage := Idle);
    assert TrackStep(ws[3], events, paid, WORKING, w4);
    PathGrows(c, ws, acts, Track(events, paid, WORKING), w4);
    ws, acts := ws + [w4], acts + [Track(events, paid, WORKING)];
  }

  /** In every state of every run: a payment that went through and has no paid file is remembered by the
      pending file, and unless its preimage is the all-zero one that marks a pending token, a call on a
      working disk picks it up and leaves its token in the paid file. */
  lemma ResumeCompletes(c: Config, ws: seq<World>, acts: seq<Action>, n: nat, h: Bytes32)
    returns (t: Token, vs: seq<World>, bs: seq<Action>)
    requires Run(c, ws, acts) && n <= |acts|
    requires h in ws[n].payments && ws[n].payments[h].state.Succeeded? && ws[n].files.paid == Absent
    ensures OnlyPending(ws[n].files, t) && t.paymentHash == h && IsPending(t)
    ensures var p := ws[n].payments[h].state.preimage;
            !IsZero(p) ==>
              && Path(c, vs, bs) && vs[0] == ws[n] && |bs| == 4
              && vs[4].files == Files(Holds(t.(preimage := p)), Absent) && vs[4].payments == ws[n].payments
  {
    InvAlongRun(c, ws, acts, n);
    assert Live(ws[n], h);
    t := ws[n].files.pending.token;
    vs, bs := [], [];
    var p := ws[n].payments[h].state.preimage;
    if !IsZero(p) {
      vs, bs := Resume(c, ws[n], t, p);
    }
  }

  // ---------------------------------------------------------------- wedged stores

  /** The store cannot be read, or holds a pending token whose payment lnd does not know (or knows with the
      all-zero preimage), and no payment is about to be sent. */
  ghost predicate Stuck(w: World) {
    && !w.stage.Ready?
    && match CurrentOf(w.files)
       case Broken => true
       case NoToken => false
       case Found(t) =>
         IsPending(t) &&
         (t.paymentHash !in w.payments
          || (w.payments[t.paymentHash].state.Succeeded? && IsZero(w.payments[t.paymentHash].state.preimage)))
  }

  lemma StuckTrack(c: Config, w: World, events: seq<TrackEvent>, paid: Token, io: Io, w': World)
    requires Inv(c, w) && Stuck(w) && TrackStep(w, events, paid, io, w')
    ensures Stuck(w')
  {
    ConclusionSeen(events);
  }

  lemma StuckStep(c: Config, w: World, a: Action, w': World)
    requires Inv(c, w) && Stuck(w) && Next(c, w, a, w')
    ensures Stuck(w') && w'.files == w.files
  {
    if a.Track? {
      StuckTrack(c, w, a.events, a.paid, a.io, w');
      ConclusionSeen(a.events);
    }
  }

  lemma {:induction false} StuckForever(c: Config, ws: seq<World>, acts: seq<Action>, n: nat)
    requires Path(c, ws, acts) && n <= |acts| && Inv(c, ws[0]) && Stuck(ws[0])
    ensures Inv(c, ws[n]) && Stuck(ws[n]) && ws[n].files == ws[0].files
  {
    if n > 0 {
      StuckForever(c, ws, acts, n - 1);
      StepKeepsInv(c, ws[n - 1], acts[n - 1], ws[n]);
      StuckStep(c, ws[n - 1], acts[n - 1], ws[n]);
    }
  }

  /** A challenge the client can meet: its macaroon parses, its invoice is cheap enough, and whoever is paid
      for it can reveal a preimage. */
  datatype Challenge = Challenge(preimage: Bytes32, baseMac: Bytes, invoiceMsat: Option<nat>)

  ghost predicate Payable(c: Config, ch: Challenge) {
    && !IsZero(ch.preimage) && |c.sha(ch.preimage)| == 32
    && c.parses(ch.baseMac) && (ch.invoiceMsat.None? || ch.invoiceMsat.value <= 1000 * c.maxCostSat)
  }

  /** tokenFromChallenge. */
  function ChallengeToken(h: Bytes32, baseMac: Bytes): (t: Token)
    ensures IsPending(t) && t.paymentHash == h && t.baseMac == baseMac
  {
    Token(h, seq(32, _ => 0), 0, 0, 0, baseMac)
  }

  function AmountOf(invoiceMsat: Option<nat>): nat {
    if invoiceMsat.Some? then invoiceMsat.value else 0
  }

  /** A stored pending token is paid for. */
  lemma SendAndPay(c: Config, w: World, preimage: Bytes32) returns (ws: seq<World>, acts: seq<Action>)
    requires Inv(c, w) && w.stage.Ready? && c.sha(preimage) == w.stage.token.paymentHash && !IsZero(preimage)
    ensures Path(c, ws, acts) && ws[0] == w && ws[|acts|].files.paid.Holds?
  {
    var t, h, amount := w.stage.token, w.stage.token.paymentHash, AmountOf(w.stage.invoiceMsat);
    var p := Payment(w.stage.invoiceMsat, c.maxFeeSat * 1000, InFlight);
    var w1 := w.(stage := Waiting(t), payments := w.payments[h := p]);
    assert Next(c, w, Send(true), w1);
    ws, acts := [w, w1], [Send(true)];
    var w2 := w1.(payments := w1.payments[h := p.(state := Succeeded(preimage, amount, 0))],
                  spent := w1.spent + amount + 0);
    PathGrows(c, ws, acts, LndSucceeds(h, preimage, amount, 0), w2);
    ws, acts := ws + [w2], acts + [LndSucceeds(h, preimage, amount, 0)];
    var paid := t.(preimage := preimage);
    var w3 := w2.(files := AfterStore(w2.files, paid, WORKING), stage := Idle);
    PathGrows(c, ws, acts, PayReturned(paid, WORKING), w3);
    ws, acts := ws + [w3], acts + [PayReturned(paid, WORKING)];
  }

  /** An empty store under a challenge pays for a new token. */
  lemma FromChallenge(c: Config, w: World, ch: Challenge) returns (ws: seq<World>, acts: seq<Action>)
    requires Inv(c, w) && w.stage.Challenged? && Payable(c, ch)
    ensures Path(c, ws, acts) && ws[0] == w && ws[|acts|].files.paid.Holds?
  {
    var t := ChallengeToken(c.sha(ch.preimage), ch.baseMac);
    var a := PayInvoice(t, ch.invoiceMsat, WORKING);
    var w1 := w.(files := Files(Absent, Holds(t)), stage := Ready(t, ch.invoiceMsat));
    assert Next(c, w, a, w1);
    ws, acts := [w, w1], [a];
    StepKeepsInv(c, w, a, w1);
    var vs, bs := SendAndPay(c, w1, ch.preimage);
    PathsJoin(c, ws, acts, vs, bs);
    ws, acts := ws + vs[1..], acts + bs;
  }

  lemma FromEmpty(c: Config, w: World, ch: Challenge) returns (ws: seq<World>, acts: seq<Action>)
    requires Inv(c, w) && Empty(w.files) && Payable(c, ch)
    ensures Path(c, ws, acts) && ws[0] == w && ws[|acts|].files.paid.Holds?
  {
    var w1, w2, w3 := w.(stage := Idle), w.(stage := Called(None)), w.(stage := Challenged);
    ws, acts := [w, w1], [EndCall];
    PathGrows(c, ws, acts, Call(WORKING), w2);
    ws, acts := ws + [w2], acts + [Call(WORKING)];
    PathGrows(c, ws, acts, PaymentRequired, w3);
    ws, acts := ws + [w3], acts + [PaymentRequired];
    StageStep(c, w, w3);
    var vs, bs := FromChallenge(c, w3, ch);
    PathsJoin(c, ws, acts, vs, bs);
    ws, acts := ws + vs[1..], acts + bs;
  }

  /** A pending token whose payment failed is removed. */
  lemma RemoveFailed(c: Config, w: World, t: Token) returns (ws: seq<World>, acts: seq<Action>)
    requires Inv(c, w) && OnlyPending(w.files, t) && FailedFor(w, t.paymentHash)
    ensures Path(c, ws, acts) && ws[0] == w && Inv(c, ws[|acts|]) && ws[|acts|].stage.Challenged?
  {
    ws, acts := ToTracking(c, w, t);
    var w4 := w.(stage := Removing(t));
    assert TrackStep(ws[3], [StatusFailed], t, WORKING, w4);
    PathGrows(c, ws, acts, Track([StatusFailed], t, WORKING), w4);
    ws, acts := ws + [w4], acts + [Track([StatusFailed], t, WORKING)];
    StageStep(c, w, w4);
    var w5 := w4.(files := Files(Absent, Absent), stage := Challenged);
    RemoveKeeps(c, w4, WORKING, w5);
    PathGrows(c, ws, acts, RemovePending(WORKING), w5);
    ws, acts := ws + [w5], acts + [RemovePending(WORKING)];
  }

  /** And a new one is paid for. */
  lemma FromFailed(c: Config, w: World, t: Token, ch: Challenge) returns (ws: seq<World>, acts: seq<Action>)
    requires Inv(c, w) && OnlyPending(w.files, t) && FailedFor(w, t.paymentHash) && Payable(c, ch)
    ensures Path(c, ws, acts) && ws[0] == w && ws[|acts|].files.paid.Holds?
  {
    ws, acts := RemoveFailed(c, w, t);
    var vs, bs := FromChallenge(c, ws[|acts|], ch);
    PathsJoin(c, ws, acts, vs, bs);
    ws, acts := ws + vs[1..], acts + bs;
  }

  /** A payment in flight may fail and be replaced. */
  lemma FromInFlight(c: Config, w: World, t: Token, ch: Challenge) returns (ws: seq<World>, acts: seq<Action>)
    requires Inv(c, w) && OnlyPending(w.files, t) && Payable(c, ch)
    requires t.paymentHash in w.payments && w.payments[t.paymentHash].state.InFlight?
    ensures Path(c, ws, acts) && ws[0] == w && ws[|acts|].files.paid.Holds?
  {
    var h := t.paymentHash;
    var w1 := w.(payments := w.payments[h := w.payments[h].(state := Failed)]);
    assert Next(c, w, LndFails(h), w1);
    StepKeepsInv(c, w, LndFails(h), w1);
    ws, acts := [w, w1], [LndFails(h)];
    var vs, bs := FromFailed(c, w1, t, ch);
    PathsJoin(c, ws, acts, vs, bs);
    ws, acts := ws + vs[1..], acts + bs;
  }

  /** So may one that is about to be sent. */
  lemma FromReady(c: Config, w: World, ch: Challenge) returns (ws: seq<World>, acts: seq<Action>)
    requires Inv(c, w) && w.stage.Ready? && Payable(c, ch)
    ensures Path(c, ws, acts) && ws[0] == w && ws[|acts|].files.paid.Holds?
  {
    var t, p := w.stage.token, Payment(w.stage.invoiceMsat, c.maxFeeSat * 1000, InFlight);
    var w1 := w.(stage := Waiting(t), payments := w.payments[t.paymentHash := p]);
    assert Next(c, w, Send(true), w1);
    StepKeepsInv(c, w, Send(true), w1);
    ws, acts := [w, w1], [Send(true)];
    var vs, bs := FromInFlight(c, w1, t, ch);
    PathsJoin(c, ws, acts, vs, bs);
    ws, acts := ws + vs[1..], acts + bs;
  }

  lemma Unstuck(c: Config, w: World, ch: Challenge) returns (ws: seq<World>, acts: seq<Action>)
    requires Inv(c, w) && !Stuck(w) && Payable(c, ch)
    ensures Path(c, ws, acts) && ws[0] == w && ws[|acts|].files.paid.Holds?
  {
    if w.files.paid.Holds? {
      ws, acts := [w], [];
    } else if w.stage.Ready? {
      ws, acts := FromReady(c, w, ch);
    } else if Empty(w.files) {
      ws, acts := FromEmpty(c, w, ch);
    } else {
      var t := w.files.pending.token;
      match w.payments[t.paymentHash].state
      case InFlight => ws, acts := FromInFlight(c, w, t, ch);
      case Failed => ws, acts := FromFailed(c, w, t, ch);
      case Succeeded(p, _, _) => ws, acts := Resume(c, w, t, p);
    }
  }

  ghost predicate CanBePaid(c: Config, w: World) {
    exists ws: seq<World>, acts: seq<Action> :: Path(c, ws, acts) && ws[0] == w && ws[|acts|].files.paid.Holds?
  }

  /** In every state of every run, as long as there are challenges the client can meet: the store can still
      come to hold a paid token if and only if it is not stuck. */
  lemma WedgedIff(c: Config, ws: seq<World>, acts: seq<Action>, n: nat, ch: Challenge)
    requires Run(c, ws, acts) && n <= |acts| && Payable(c, ch)
    ensures CanBePaid(c, ws[n]) <==> !Stuck(ws[n])
  {
    InvAlongRun(c, ws, acts, n);
    if !Stuck(ws[n]) {
      var vs, bs := Unstuck(c, ws[n], ch);
    }
    if Stuck(ws[n]) && CanBePaid(c, ws[n]) {
      var vs: seq<World>, bs: seq<Action> :| Path(c, vs, bs) && vs[0] == ws[n] && vs[|bs|].files.paid.Holds?;
      StuckForever(c, vs, bs, |bs|);
      assert false;
    }
  }

  /** A process that dies between storing the pending token and sending the payment leaves a stuck store,
      whatever the token and the invoice. */
  lemma DeathBeforeSending(c: Config, t: Token, invoiceMsat: Option<nat>) returns (ws: seq<World>, acts: seq<Action>)
    requires IsPending(t) && c.parses(t.baseMac) && (invoiceMsat.None? || invoiceMsat.value <= 1000 * c.maxCostSat)
    ensures Run(c, ws, acts) && |acts| == 4 && acts[3] == Die && Stuck(ws[4])
    ensures OnlyPending(ws[4].files, t) && ws[4].payments == map[]
  {
    var w0 := World(Files(Absent, Absent), map[], 0, Idle);
    var w1, w2 := w0.(stage := Called(None)), w0.(stage := Challenged);
    var w3 := w0.(files := Files(Absent, Holds(t)), stage := Ready(t, invoiceMsat));
    var w4 := w3.(stage := Idle);
    ws, acts := [w0, w1, w2, w3, w4], [Call(WORKING), PaymentRequired, PayInvoice(t, invoiceMsat, WORKING), Die];
    assert Next(c, w0, acts[0], w1) && Next(c, w1, acts[1], w2);
    assert Next(c, w2, acts[2], w3) && Next(c, w3, acts[3], w4);
  }
}
