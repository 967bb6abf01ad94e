/** The whole system in one step relation: the relay and its lnd node, the challenger that follows that node,
    the secret store, and the authenticator that reads all three. Aperture and the relay share the node, and
    only circuitSwitch settles its hold invoices. */
module EndToEnd {
  import opened Words
  import opened Caveats
  import opened Identifiers
  import opened InvoiceCache
  import opened Mint
  import Header
  import RelayCircuits
  import InvoiceWait

  const SECOND: int := 1_000_000_000
  /** L402RightExpiryDuration, in nanoseconds. */
  const RIGHT_EXPIRY: int := 3600 * SECOND

  // ---------------------------------------------------------------- Accept

  /** What Accept learns from the secret store, the clock and the challenger, each at its own moment.
      settledAt is None when the query fails and Some(None) when the column is NULL. */
  datatype View = View(rows: seq<Row>, nowSec: int, lastRead: Option<InvoiceState>,
                       settledAt: Option<Option<int>>, now: int)

  /** VerifyRightsWithinExpiry. */
  predicate WithinExpiry(settledAt: Option<Option<int>>, duration: int, now: int) {
    settledAt.Some? && settledAt.value.Some? && !(settledAt.value.value * SECOND + duration < now)
  }

  ghost predicate Grants(sha: Bytes -> Bytes, credential: Option<(Macaroon, Bytes32)>, target: string, v: View) {
    && credential.Some?
    && Verifies(sha, v.rows, credential.value.0, credential.value.1, target, v.nowSec)
    && v.lastRead == Some(SETTLED)
    && WithinExpiry(v.settledAt, RIGHT_EXPIRY, v.now)
  }

  /** Accept. */
  method Accept(wire: Header.Wire, sha: Bytes -> Bytes, header: Header.HttpHeader, target: string, v: View)
    returns (ok: bool)
    ensures ok <==> Grants(sha, Header.Presented(wire, header.fields), target, v)
  {
    var credential := header.FromHeader(wire);
    if credential.None? {
      return false;
    }
    var (mac, preimage) := credential.value;
    var verified := VerifyL402(sha, v.rows, mac, preimage, target, v.nowSec);
    if !verified {
      return false;
    }
    if v.lastRead != Some(SETTLED) {
      return false;
    }
    return WithinExpiry(v.settledAt, RIGHT_EXPIRY, v.now);
  }

  // ---------------------------------------------------------------- the system

  /** keys are the macaroon root keys somebody outside holds. */
  datatype Env = Env(relay: RelayCircuits.Env, keys: set<Bytes>)

  /** What lnd notes of a settlement: the date in seconds and its settle index. */
  datatype Receipt = Receipt(date: int, index: uint64)

  /** settled holds lnd's receipts; now is the clock in nanoseconds; log is every invoice snapshot lnd has
      made for its subscribers; from is the settle index the challenger is subscribed from. */
  datatype System = System(world: RelayCircuits.World, settled: map<Bytes, Receipt>, now: int, log: seq<Invoice>,
                           from: uint64, wait: InvoiceWait.State, rows: seq<Row>, issued: seq<Issue>)

  datatype Action =
    | RelayOrLnd(a: RelayCircuits.Action, index: uint64)
    | Snapshot(invoice: Invoice)
    | StartChallenger(listed: seq<Event>)
    | Wait(b: InvoiceWait.Action)
    | Update(e: Event, next: map<Bytes32, InvoiceState>)
    | MintToken(services: seq<Service>, inputs: MintInputs, r: Option<(Macaroon, string)>)
    | Tick(now: int)

  predicate IsSettled(w: RelayCircuits.World, h: Bytes) {
    h in w.holds && w.holds[h].state.Settled?
  }

  /** lnd stamps an invoice with the time when it settles and the next settle index. */
  ghost function Stamped(s: System, w': RelayCircuits.World, index: uint64): map<Bytes, Receipt> {
    map h | h in w'.holds && w'.holds[h].state.Settled? ::
      if h in s.settled then s.settled[h] else Receipt(s.now / SECOND, index)
  }

  ghost predicate RelayStep(e: Env, s: System, b: RelayCircuits.Action, index: uint64, s': System) {
    && RelayCircuits.Next(e.relay, s.world, b, s'.world)
    && s' == s.(world := s'.world, settled := Stamped(s, s'.world, index))
    && (s'.settled.Keys != s.settled.Keys ==> forall h | h in s.settled :: s.settled[h].index < index)
  }

  function StateOf(hold: RelayCircuits.Hold): InvoiceState {
    match hold.state
    case Open => OPEN
    case Accepted(_, _) => ACCEPTED
    case Settled(_, _) => SETTLED
    case Canceled(_) => CANCELED
  }

  /** An invoice as lnd reports it now. */
  ghost predicate Truthful(s: System, i: Invoice) {
    && i.rHash.Some? && i.rHash.value in s.world.holds
    && i.state == StateOf(s.world.holds[i.rHash.value])
    && (i.state == SETTLED ==>
          && i.rHash.value in s.settled
          && i.settleDate == s.settled[i.rHash.value].date && i.settleIndex == s.settled[i.rHash.value].index)
  }

  /** ListInvoices reports every invoice of the node once. */
  ghost predicate Lists(s: System, listed: seq<Event>) {
    && (forall i | 0 <= i < |listed| :: Truthful(s, listed[i].invoice) && listed[i].now == s.now && !BadHash(listed[i]))
    && DistinctHashes(listed)
    && (forall h | h in s.world.holds :: exists i :: 0 <= i < |listed| && listed[i].invoice.rHash == Some(h))
  }

  /** The stream may bring a snapshot late, twice or out of order; of settlements it brings those with a
      settle index beyond the one subscribed from. */
  ghost predicate Sent(s: System, e: Event) {
    && e.invoice in s.log && e.now == s.now && !BadHash(e)
    && (e.invoice.state == SETTLED ==> s.from < e.invoice.settleIndex)
  }

  /** SetSettledAtByPaymentHash stamps every row of the hash. */
  ghost predicate RowsAfter(rows: seq<Row>, e: Event, rows': seq<Row>) {
    && |rows'| == |rows|
    && forall i | 0 <= i < |rows| ::
         rows'[i] == rows[i].(settledAt := LastSettle([e], rows[i].paymentHash, rows[i].settledAt))
  }

  ghost predicate CacheAfter(cache: map<Bytes32, InvoiceState>, e: Event, next: map<Bytes32, InvoiceState>) {
    forall h :: Lookup(next, h) == OrElse(LastEvent([e], h), Lookup(cache, h))
  }

  ghost predicate UpdateStep(s: System, e: Event, next: map<Bytes32, InvoiceState>, s': System) {
    && Sent(s, e) && s.wait.versions != []
    && CacheAfter(InvoiceWait.Current(s.wait), e, next)
    && InvoiceWait.Next(s.wait, InvoiceWait.ReaderUpdate(next), s'.wait)
    && RowsAfter(s.rows, e, s'.rows)
    && s' == s.(wait := s'.wait, rows := s'.rows)
  }

  ghost predicate StartStep(s: System, listed: seq<Event>, s': System) {
    && Lists(s, listed)
    && InvoiceWait.Init(s'.wait) && Caches(listed, map[], s'.wait.versions[0])
    && IsMaximum(listed, SettleIndexOf, s'.from)
    && s' == s.(wait := s'.wait, from := s'.from)
  }

  ghost predicate MintStep(e: Env, s: System, services: seq<Service>, inputs: MintInputs,
                           r: Option<(Macaroon, string)>, s': System) {
    && (inputs.secret.Some? ==> inputs.secret.value !in e.keys)
    && Minted(e.relay.sha, services, inputs, s.rows, s.issued, s'.rows, s'.issued, r)
    && s' == s.(rows := s'.rows, issued := s'.issued)
  }

  ghost predicate Next(e: Env, s: System, a: Action, s': System) {
    match a
    case RelayOrLnd(b, index) => RelayStep(e, s, b, index, s')
    case Snapshot(i) => Truthful(s, i) && s' == s.(log := s.log + [i])
    case StartChallenger(listed) => StartStep(s, listed, s')
    case Wait(b) => !b.ReaderUpdate? && InvoiceWait.Next(s.wait, b, s'.wait) && s' == s.(wait := s'.wait)
    case Update(ev, next) => UpdateStep(s, ev, next, s')
    case MintToken(services, inputs, r) => MintStep(e, s, services, inputs, r, s')
    case Tick(now) => s.now <= now && s' == s.(now := now)
  }

  ghost predicate Init(s: System) {
    && RelayCircuits.Init(s.world) && s.settled == map[] && s.log == [] && s.from == 0
    && InvoiceWait.Init(s.wait) && s.wait.versions[0] == map[]
    && s.rows == [] && s.issued == []
  }

  ghost predicate Run(e: Env, ss: seq<System>, acts: seq<Action>) {
    && |ss| == |acts| + 1 && Init(ss[0])
    && forall i | 0 <= i < |acts| :: Next(e, ss[i], acts[i], ss[i + 1])
  }

  // ---------------------------------------------------------------- the invariant

  ghost predicate Dated(s: System) {
    forall h :: h in s.settled <==> IsSettled(s.world, h)
  }

  ghost predicate InvoiceTrue(settled: map<Bytes, Receipt>, i: Invoice) {
    i.state == SETTLED ==>
      i.rHash.Some? && i.rHash.value in settled && settled[i.rHash.value] == Receipt(i.settleDate, i.settleIndex)
  }

  ghost predicate LogTrue(settled: map<Bytes, Receipt>, log: seq<Invoice>) {
    forall i | 0 <= i < |log| :: InvoiceTrue(settled, log[i])
  }

  ghost predicate CacheTrue(settled: map<Bytes, Receipt>, cache: map<Bytes32, InvoiceState>) {
    forall h | h in cache && cache[h] == SETTLED :: h in settled
  }

  ghost predicate VersionsTrue(settled: map<Bytes, Receipt>, versions: seq<map<Bytes32, InvoiceState>>) {
    forall v | 0 <= v < |versions| :: CacheTrue(settled, versions[v])
  }

  ghost predicate RowsTrue(settled: map<Bytes, Receipt>, keys: set<Bytes>, rows: seq<Row>) {
    forall i | 0 <= i < |rows| ::
      && rows[i].secret !in keys
      && (rows[i].settledAt.Some? ==>
            rows[i].paymentHash in settled && settled[rows[i].paymentHash].date == rows[i].settledAt.value)
  }

  ghost predicate AllIssued(issued: seq<Issue>) {
    forall i | 0 <= i < |issued| :: WellIssued(issued[i])
  }

  ghost predicate Inv(e: Env, s: System) {
    && RelayCircuits.Inv(e.relay, s.world) && Dated(s)
    && InvoiceWait.Inv(s.wait)
    && LogTrue(s.settled, s.log) && VersionsTrue(s.settled, s.wait.versions)
    && RowsTrue(s.settled, e.keys, s.rows) && UniqueRows(s.rows) && AllIssued(s.issued)
  }

  /** Dates are kept, so what was true of them stays true. */
  ghost predicate Keeps(settled: map<Bytes, Receipt>, settled': map<Bytes, Receipt>) {
    forall h | h in settled :: h in settled' && settled'[h] == settled[h]
  }

  /** What a step does to the dates: it adds the invoices it settles, at the current time. */
  ghost predicate Progress(s: System, s': System) {
    && Keeps(s.settled, s'.settled) && s.now <= s'.now
    && forall h | h in s'.settled && h !in s.settled :: s'.settled[h].date == s.now / SECOND
  }

  lemma RelayKeeps(e: Env, s: System, b: RelayCircuits.Action, index: uint64, s': System)
    requires Inv(e, s) && RelayStep(e, s, b, index, s')
    ensures RelayCircuits.Inv(e.relay, s'.world) && Dated(s') && Keeps(s.settled, s'.settled)
  {
    RelayCircuits.StepKeepsInv(e.relay, s.world, b, s'.world);
    forall h | h in s.settled ensures h in s'.settled && s'.settled[h] == s.settled[h] {
      assert IsSettled(s.world, h);
      RelayCircuits.FinalStep(e.relay, s.world, b, s'.world, h);
    }
  }

  lemma KeepsTrue(settled: map<Bytes, Receipt>, settled': map<Bytes, Receipt>, keys: set<Bytes>, log: seq<Invoice>,
                  versions: seq<map<Bytes32, InvoiceState>>, rows: seq<Row>)
    requires Keeps(settled, settled')
    requires LogTrue(settled, log) && VersionsTrue(settled, versions) && RowsTrue(settled, keys, rows)
    ensures LogTrue(settled', log) && VersionsTrue(settled', versions) && RowsTrue(settled', keys, rows)
  {
    forall v | 0 <= v < |versions| ensures CacheTrue(settled', versions[v]) {
      assert CacheTrue(settled, versions[v]);
    }
  }

  lemma {:induction false} ListedTrue(s: System, listed: seq<Event>, h: Bytes32)
    requires forall i | 0 <= i < |listed| :: InvoiceTrue(s.settled, listed[i].invoice)
    ensures LastListed(listed, h) == Some(SETTLED) ==> h in s.settled
  {
    if listed != [] {
      var n := |listed| - 1;
      assert InvoiceTrue(s.settled, listed[n].invoice);
      ListedTrue(s, listed[..n], h);
    }
  }

  lemma StartKeeps(e: Env, s: System, listed: seq<Event>, s': System)
    requires Inv(e, s) && StartStep(s, listed, s')
    ensures Inv(e, s')
  {
    var cache := s'.wait.versions[0];
    assert forall i | 0 <= i < |listed| :: Truthful(s, listed[i].invoice);
    forall h | h in cache && cache[h] == SETTLED ensures h in s.settled {
      assert Lookup(cache, h) == FirstSome(LastListed(listed, h), Lookup(map[], h));
      ListedTrue(s, listed, h);
    }
  }

  lemma OneEvent(e: Event, h: Bytes32, before: Option<int>)
    ensures LastEvent([e], h)
         == if HashOf(e) == Some(h) then Some(if Irrelevant(e) then None else Some(e.invoice.state)) else None
    ensures LastSettle([e], h, before)
         == if HashOf(e) == Some(h) && e.invoice.state == SETTLED && !e.dbFails
            then Some(e.invoice.settleDate) else before
  {
    assert [e][..0] == [];
  }

  lemma UpdateKeeps(e: Env, s: System, ev: Event, next: map<Bytes32, InvoiceState>, s': System)
    requires Inv(e, s) && UpdateStep(s, ev, next, s')
    ensures Inv(e, s')
  {
    InvoiceWait.StepKeepsInv(s.wait, InvoiceWait.ReaderUpdate(next), s'.wait);
    var cache := InvoiceWait.Current(s.wait);
    assert CacheTrue(s.settled, cache);
    forall h | h in next && next[h] == SETTLED ensures h in s.settled {
      assert Lookup(next, h) == OrElse(LastEvent([ev], h), Lookup(cache, h));
      OneEvent(ev, h, None);
    }
    assert CacheTrue(s.settled, next);
    forall i | 0 <= i < |s.rows| ensures s'.rows[i].secret !in e.keys
      ensures s'.rows[i].settledAt.Some? ==>
                && s'.rows[i].paymentHash in s.settled
                && s.settled[s'.rows[i].paymentHash].date == s'.rows[i].settledAt.value
    {
      OneEvent(ev, s.rows[i].paymentHash, s.rows[i].settledAt);
    }
  }

  lemma WaitKeeps(e: Env, s: System, b: InvoiceWait.Action, s': System)
    requires Inv(e, s) && Next(e, s, Wait(b), s')
    ensures Inv(e, s')
  {
    InvoiceWait.StepKeepsInv(s.wait, b, s'.wait);
    assert s'.wait.versions == s.wait.versions;
  }

  lemma MintKeeps(e: Env, s: System, services: seq<Service>, inputs: MintInputs, r: Option<(Macaroon, string)>,
                  s': System)
    requires Inv(e, s) && MintStep(e, s, services, inputs, r, s')
    ensures Inv(e, s')
  {
    MintKeepsStore(e.relay.sha, services, inputs, s.rows, s.issued, s'.rows, s'.issued, r);
    assert forall i | 0 <= i < |s.rows| :: s'.rows[i] == s.rows[i];
    assert forall i | 0 <= i < |s.issued| :: s'.issued[i] == s.issued[i];
  }

  lemma StepKeepsInv(e: Env, s: System, a: Action, s': System)
    requires Inv(e, s) && Next(e, s, a, s')
    ensures Inv(e, s') && Progress(s, s')
  {
    match a
    case RelayOrLnd(b, index) =>
      RelayKeeps(e, s, b, index, s');
      KeepsTrue(s.settled, s'.settled, e.keys, s.log, s.wait.versions, s.rows);
    case Snapshot(i) =>
    case StartChallenger(listed) => StartKeeps(e, s, listed, s');
    case Wait(b) => WaitKeeps(e, s, b, s');
    case Update(ev, next) => UpdateKeeps(e, s, ev, next, s');
    case MintToken(services, inputs, r) => MintKeeps(e, s, services, inputs, r, s');
    case Tick(now) =>
  }

  lemma {:induction false} InvAlongRun(e: Env, ss: seq<System>, acts: seq<Action>, n: nat)
    requires Run(e, ss, acts) && n <= |acts|
    ensures Inv(e, ss[n])
  {
    if n > 0 {
      InvAlongRun(e, ss, acts, n - 1);
      StepKeepsInv(e, ss[n - 1], acts[n - 1], ss[n]);
    } else {
      InitInv(e, ss[0]);
    }
  }

  lemma InitInv(e: Env, s: System)
    requires Init(s)
    ensures Inv(e, s)
  {
    assert RelayCircuits.Nets(s.world) == [];
  }

  lemma ProgressAlongRun(e: Env, ss: seq<System>, acts: seq<Action>, n: nat)
    requires Run(e, ss, acts) && n < |acts|
    ensures Dated(ss[n]) && Dated(ss[n + 1]) && Progress(ss[n], ss[n + 1])
  {
    InvAlongRun(e, ss, acts, n);
    StepKeepsInv(e, ss[n], acts[n], ss[n + 1]);
  }

  lemma SettledStays(e: Env, ss: seq<System>, acts: seq<Action>, n: nat, h: Bytes)
    requires Run(e, ss, acts) && n < |acts|
    ensures IsSettled(ss[n].world, h) ==> IsSettled(ss[n + 1].world, h)
  {
    ProgressAlongRun(e, ss, acts, n);
    DatedBoth(ss[n], ss[n + 1], h);
  }

  lemma {:induction false} StaysSettled(ss: seq<System>, n: nat, m: nat, h: Bytes)
    requires n <= m < |ss| && IsSettled(ss[n].world, h)
    requires forall i | n <= i < m :: IsSettled(ss[i].world, h) ==> IsSettled(ss[i + 1].world, h)
    ensures IsSettled(ss[m].world, h)
    decreases m
  {
    if n < m {
      StaysSettled(ss, n, m - 1, h);
    }
  }

  lemma KeptAlongRun(e: Env, ss: seq<System>, acts: seq<Action>, n: nat, m: nat, h: Bytes)
    requires Run(e, ss, acts) && n <= m <= |acts| && IsSettled(ss[n].world, h)
    ensures IsSettled(ss[m].world, h)
  {
    forall i | n <= i < m ensures IsSettled(ss[i].world, h) ==> IsSettled(ss[i + 1].world, h) {
      SettledStays(e, ss, acts, i, h);
    }
    StaysSettled(ss, n, m, h);
  }

  // ---------------------------------------------------------------- payment before access

  /** Step n is the one that settles the hold invoice. */
  ghost predicate SettlesAt(ss: seq<System>, h: Bytes, n: nat)
    requires n + 1 < |ss|
  {
    !IsSettled(ss[n].world, h) && IsSettled(ss[n + 1].world, h)
  }

  /** A settle date is the time of the step that settled the invoice. */
  lemma {:induction false} SettleMoment(e: Env, ss: seq<System>, acts: seq<Action>, n: nat, h: Bytes) returns (at: nat)
    requires Run(e, ss, acts) && n <= |acts| && h in ss[n].settled
    ensures at < n && SettlesAt(ss, h, at) && ss[n].settled[h].date == ss[at].now / SECOND
  {
    assert n > 0 by { InitInv(e, ss[0]); }
    ProgressAlongRun(e, ss, acts, n - 1);
    if h in ss[n - 1].settled {
      at := SettleMoment(e, ss, acts, n - 1, h);
    } else {
      at := n - 1;
      DatedBoth(ss[at], ss[n], h);
    }
  }

  lemma DatedBoth(s: System, s': System, h: Bytes)
    requires Dated(s) && Dated(s')
    ensures h in s.settled <==> IsSettled(s.world, h)
    ensures h in s'.settled <==> IsSettled(s'.world, h)
  {
  }

  /** The moments at which a call of Accept makes its reads: the secret store and clock for VerifyL402, the
      return of VerifyInvoiceStatus, the settled_at query, and the clock it is compared with. */
  datatype Reads = Reads(verify: nat, status: nat, call: nat, query: nat, clock: nat)

  /** SELECT settled_at for a hash: an error, or some row of that hash. */
  ghost predicate Queried(rows: seq<Row>, h: Bytes, r: Option<Option<int>>) {
    r.None? || exists i :: 0 <= i < |rows| && rows[i].paymentHash == h && r == Some(rows[i].settledAt)
  }

  /** Accept runs somewhere in the run, with anything happening between its reads, and says yes. */
  ghost predicate Accepted(e: Env, ss: seq<System>, at: Reads, mac: Macaroon, preimage: Bytes32, target: string,
                           v: View) {
    && at.verify <= at.status <= at.query <= at.clock < |ss|
    && v.rows == ss[at.verify].rows && v.nowSec == UnixTime(ss[at.verify].now / SECOND)
    && at.call < |ss[at.status].wait.calls|
    && var c := ss[at.status].wait.calls[at.call];
    && c.hash == e.relay.sha(preimage) && c.wanted == SETTLED && InvoiceWait.Returned(c) && v.lastRead == c.read
    && Queried(ss[at.query].rows, e.relay.sha(preimage), v.settledAt)
    && v.now == ss[at.clock].now
    && Grants(e.relay.sha, Some((mac, preimage)), target, v)
  }

  /** What has been paid when an invoice is settled: the outgoing payment of the circuit for that hash, with
      the amount of the creator's invoice, and it returned the preimage. */
  ghost predicate CreatorPaid(e: RelayCircuits.Env, w: RelayCircuits.World, h: Bytes) {
    && h in w.payments && w.payments[h].state.Succeeded? && e.sha(w.payments[h].state.preimage) == h
    && exists k :: 0 <= k < |w.circuits| && w.circuits[k].hash == h && w.payments[h].amount == w.circuits[k].amount
  }

  lemma SettledMeansPaid(e: RelayCircuits.Env, w: RelayCircuits.World, h: Bytes)
    requires RelayCircuits.Inv(e, w) && IsSettled(w, h)
    ensures CreatorPaid(e, w, h)
  {
    assert RelayCircuits.HasCircuit(w, h);
    var k :| 0 <= k < |w.circuits| && w.circuits[k].hash == h;
    assert RelayCircuits.FitsAt(e, w, k);
  }

  lemma WithinTheHour(settledSec: int, settledNs: int, now: int)
    requires settledSec == settledNs / SECOND && !(settledSec * SECOND + RIGHT_EXPIRY < now)
    ensures now <= settledNs + RIGHT_EXPIRY
  {
  }

  /** A recorded settle date is lnd's. */
  lemma QueryTrue(e: Env, s: System, h: Bytes, r: Option<Option<int>>)
    requires Inv(e, s) && Queried(s.rows, h, r) && r.Some? && r.value.Some?
    ensures h in s.settled && s.settled[h].date == r.value.value
  {
    var i :| 0 <= i < |s.rows| && s.rows[i].paymentHash == h && r == Some(s.rows[i].settledAt);
  }

  /** In every run: when Accept lets a request through, the creator's invoice behind the preimage had been paid
      and its hold invoice settled before VerifyInvoiceStatus answered, and no more than 3600 seconds have passed
      since. */
  lemma AcceptedMeansPaid(e: Env, ss: seq<System>, acts: seq<Action>, at: Reads, mac: Macaroon, preimage: Bytes32,
                          target: string, v: View) returns (settling: nat)
    requires Run(e, ss, acts) && Accepted(e, ss, at, mac, preimage, target, v)
    ensures settling < at.status && SettlesAt(ss, e.relay.sha(preimage), settling)
    ensures ss[at.clock].now <= ss[settling].now + 3_600_000_000_000
    ensures forall n | settling < n < |ss| :: CreatorPaid(e.relay, ss[n].world, e.relay.sha(preimage))
  {
    var h := e.relay.sha(preimage);
    assert WithinExpiry(v.settledAt, RIGHT_EXPIRY, v.now);
    settling := PaidInTime(e, ss, acts, at.query, h, v.settledAt, v.now);
    StatusMeansSettled(e, ss, acts, at.status, at.call);
    SettledAfter(e, ss, acts, at.status, settling, h);
  }

  /** An invoice settles once, so wherever it is settled the settling step lies before. */
  lemma SettledAfter(e: Env, ss: seq<System>, acts: seq<Action>, n: nat, settling: nat, h: Bytes)
    requires Run(e, ss, acts) && n <= |acts| && IsSettled(ss[n].world, h)
    requires settling + 1 < |ss| && SettlesAt(ss, h, settling)
    ensures settling < n
  {
    if n <= settling {
      KeptAlongRun(e, ss, acts, n, settling, h);
    }
  }

  /** The same of the query and the clock alone: the settle date in the secret store vouches for the payment. */
  lemma PaidInTime(e: Env, ss: seq<System>, acts: seq<Action>, n: nat, h: Bytes, r: Option<Option<int>>, now: int)
    returns (settling: nat)
    requires Run(e, ss, acts) && n <= |acts| && Queried(ss[n].rows, h, r) && WithinExpiry(r, RIGHT_EXPIRY, now)
    ensures settling < n && SettlesAt(ss, h, settling) && now <= ss[settling].now + 3_600_000_000_000
    ensures forall m | settling < m < |ss| :: CreatorPaid(e.relay, ss[m].world, h)
  {
    DateRead(e, ss, acts, n, h, r);
    settling := SettleMoment(e, ss, acts, n, h);
    WithinTheHour(r.value.value, ss[settling].now, now);
    forall m | settling < m < |ss| ensures CreatorPaid(e.relay, ss[m].world, h) {
      PaidEverAfter(e, ss, acts, settling + 1, m, h);
    }
  }

  lemma DateRead(e: Env, ss: seq<System>, acts: seq<Action>, n: nat, h: Bytes, r: Option<Option<int>>)
    requires Run(e, ss, acts) && n <= |acts| && Queried(ss[n].rows, h, r) && r.Some? && r.value.Some?
    ensures h in ss[n].settled && ss[n].settled[h].date == r.value.value
  {
    InvAlongRun(e, ss, acts, n);
    QueryTrue(e, ss[n], h, r);
  }

  lemma PaidEverAfter(e: Env, ss: seq<System>, acts: seq<Action>, n: nat, m: nat, h: Bytes)
    requires Run(e, ss, acts) && n <= m <= |acts| && IsSettled(ss[n].world, h)
    ensures CreatorPaid(e.relay, ss[m].world, h)
  {
    KeptAlongRun(e, ss, acts, n, m, h);
    InvAlongRun(e, ss, acts, m);
    SettledMeansPaid(e.relay, ss[m].world, h);
  }

  /** VerifyInvoiceStatus says SETTLED only of an invoice that is. */
  lemma StatusMeansSettled(e: Env, ss: seq<System>, acts: seq<Action>, n: nat, i: nat)
    requires Run(e, ss, acts) && n <= |acts| && i < |ss[n].wait.calls|
    requires ss[n].wait.calls[i].wanted == SETTLED && InvoiceWait.ReturnsNil(ss[n].wait.calls[i])
    ensures IsSettled(ss[n].world, ss[n].wait.calls[i].hash)
  {
    InvAlongRun(e, ss, acts, n);
    assert InvoiceWait.CallOk(ss[n].wait, i);
    assert CacheTrue(ss[n].settled, ss[n].wait.versions[ss[n].wait.calls[i].readAt]);
  }

  /** And the credential extends a token this mint issued, for that very payment hash and a service that
      token names. */
  lemma AcceptedMeansIssued(e: Env, ss: seq<System>, acts: seq<Action>, at: Reads, mac: Macaroon, preimage: Bytes32,
                            target: string, v: View) returns (k: nat)
    requires Run(e, ss, acts) && Accepted(e, ss, at, mac, preimage, target, v)
    requires Derivable(mac.sig, SigsOf(ss[at.verify].issued), e.keys)
    ensures k < |ss[at.verify].issued|
    ensures var i := ss[at.verify].issued[k];
            && mac.id == i.mac.id && i.mac.caveats <= mac.caveats
            && i.paymentHash == e.relay.sha(preimage)
            && (i.services != [] && DelimiterFree(i.services) ==> NamesService(i.services, target))
  {
    InvAlongRun(e, ss, acts, at.verify);
    var s := ss[at.verify];
    k := TokenSoundness(e.relay.sha, s.rows, s.issued, e.keys, mac, preimage, target, v.nowSec);
  }

  // ---------------------------------------------------------------- access needs a live update

  /** A settlement that the stream reader hears of and records. */
  predicate Stamps(a: Action, h: Bytes) {
    a.Update? && HashOf(a.e) == Some(h) && a.e.invoice.state == SETTLED && !a.e.dbFails
  }

  /** What one step does to row r: it keeps its place and hash, only a stamping update changes its settle
      date, and a new row has none. */
  ghost predicate RowMoves(s: System, a: Action, s': System, r: nat) {
    && (r < |s.rows| ==>
          && r < |s'.rows| && s'.rows[r].paymentHash == s.rows[r].paymentHash
          && (!Stamps(a, s.rows[r].paymentHash) ==> s'.rows[r].settledAt == s.rows[r].settledAt)
          && (Stamps(a, s.rows[r].paymentHash) ==> s'.rows[r].settledAt.Some?))
    && (|s.rows| <= r < |s'.rows| ==> s'.rows[r].settledAt == None)
  }

  lemma RowStep(e: Env, s: System, a: Action, s': System, r: nat)
    requires Next(e, s, a, s')
    ensures RowMoves(s, a, s', r)
  {
    if a.Update? && r < |s.rows| {
      OneEvent(a.e, s.rows[r].paymentHash, s.rows[r].settledAt);
    }
    if a.MintToken? {
      MintKeepsStore(e.relay.sha, a.services, a.inputs, s.rows, s.issued, s'.rows, s'.issued, a.r);
    }
  }

  ghost predicate RowHistory(ss: seq<System>, acts: seq<Action>, r: nat) {
    && |ss| == |acts| + 1 && ss[0].rows == []
    && forall i | 0 <= i < |acts| :: RowMoves(ss[i], acts[i], ss[i + 1], r)
  }

  lemma HistoryOf(e: Env, ss: seq<System>, acts: seq<Action>, r: nat)
    requires Run(e, ss, acts)
    ensures RowHistory(ss, acts, r)
  {
    forall i | 0 <= i < |acts| ensures RowMoves(ss[i], acts[i], ss[i + 1], r) {
      RowStep(e, ss[i], acts[i], ss[i + 1], r);
    }
  }

  /** Step i records the settlement for row r, which is there to be stamped. */
  ghost predicate StampsRow(ss: seq<System>, acts: seq<Action>, i: nat, r: nat)
    requires i < |acts| < |ss|
  {
    r < |ss[i].rows| && Stamps(acts[i], ss[i].rows[r].paymentHash)
  }

  lemma {:induction false} DatedWasStamped(ss: seq<System>, acts: seq<Action>, n: nat, r: nat) returns (i: nat)
    requires RowHistory(ss, acts, r) && n <= |acts| && r < |ss[n].rows| && ss[n].rows[r].settledAt.Some?
    ensures i < n && StampsRow(ss, acts, i, r) && ss[i].rows[r].paymentHash == ss[n].rows[r].paymentHash
  {
    assert RowMoves(ss[n - 1], acts[n - 1], ss[n], r);
    if StampsRow(ss, acts, n - 1, r) {
      i := n - 1;
    } else {
      i := DatedWasStamped(ss, acts, n - 1, r);
    }
  }

  lemma {:induction false} StampedIsDated(ss: seq<System>, acts: seq<Action>, i: nat, n: nat, r: nat)
    requires RowHistory(ss, acts, r) && i < n <= |acts| && StampsRow(ss, acts, i, r)
    ensures r < |ss[n].rows| && ss[n].rows[r].paymentHash == ss[i].rows[r].paymentHash && ss[n].rows[r].settledAt.Some?
    decreases n
  {
    assert RowMoves(ss[n - 1], acts[n - 1], ss[n], r);
    if i < n - 1 {
      StampedIsDated(ss, acts, i, n - 1, r);
    }
  }

  /** In every run: a row has a settle date exactly if the stream reader recorded the settlement at an earlier
      step at which the row was already there. Listing invoices at start gives no date. */
  lemma DatedIffStamped(e: Env, ss: seq<System>, acts: seq<Action>, n: nat, r: nat)
    requires Run(e, ss, acts) && n <= |acts| && r < |ss[n].rows|
    ensures ss[n].rows[r].settledAt.Some? <==> exists i :: 0 <= i < n && StampsRow(ss, acts, i, r)
  {
    HistoryOf(e, ss, acts, r);
    if ss[n].rows[r].settledAt.Some? {
      var i := DatedWasStamped(ss, acts, n, r);
    }
    if exists i :: 0 <= i < n && StampsRow(ss, acts, i, r) {
      var i :| 0 <= i < n && StampsRow(ss, acts, i, r);
      StampedIsDated(ss, acts, i, n, r);
    }
  }

  /** So whoever is accepted, the stream reader has recorded that settlement for a row of his hash. */
  lemma AcceptedWasStamped(e: Env, ss: seq<System>, acts: seq<Action>, at: Reads, mac: Macaroon, preimage: Bytes32,
                           target: string, v: View) returns (i: nat, r: nat)
    requires Run(e, ss, acts) && Accepted(e, ss, at, mac, preimage, target, v)
    ensures i < at.query && StampsRow(ss, acts, i, r) && ss[i].rows[r].paymentHash == e.relay.sha(preimage)
  {
    var h := e.relay.sha(preimage);
    assert Queried(ss[at.query].rows, h, v.settledAt) && v.settledAt.Some? && v.settledAt.value.Some?;
    var rows := ss[at.query].rows;
    r :| 0 <= r < |rows| && rows[r].paymentHash == h && v.settledAt == Some(rows[r].settledAt);
    HistoryOf(e, ss, acts, r);
    i := DatedWasStamped(ss, acts, at.query, r);
  }

  // ---------------------------------------------------------------- settled while the challenger was down

  ghost predicate Undated(s: System, h: Bytes) {
    forall r | 0 <= r < |s.rows| && s.rows[r].paymentHash == h :: s.rows[r].settledAt == None
  }

  /** The settlement lies behind the subscription, and no row of it has a date. */
  ghost predicate Missed(s: System, h: Bytes) {
    h in s.settled && s.settled[h].index <= s.from && Undated(s, h)
  }

  lemma UndatedStep(e: Env, s: System, a: Action, s': System, h: Bytes)
    requires Next(e, s, a, s') && Undated(s, h) && !Stamps(a, h)
    ensures Undated(s', h)
  {
    forall r | 0 <= r < |s'.rows| && s'.rows[r].paymentHash == h ensures s'.rows[r].settledAt == None {
      RowStep(e, s, a, s', r);
    }
  }

  /** A listing moves the subscription past every settlement there is. */
  lemma ListingCovers(s: System, listed: seq<Event>, s': System, h: Bytes)
    requires Dated(s) && StartStep(s, listed, s') && h in s.settled
    ensures s'.settled == s.settled && s'.rows == s.rows && s.settled[h].index <= s'.from
  {
    assert IsSettled(s.world, h);
    var i :| 0 <= i < |listed| && listed[i].invoice.rHash == Some(h);
    assert Truthful(s, listed[i].invoice);
    assert SettleIndexOf(listed[i]) <= s'.from;
  }

  lemma MissedIsNotStamped(s: System, a: Action, s': System, h: Bytes)
    requires LogTrue(s.settled, s.log) && Missed(s, h) && (a.Update? ==> UpdateStep(s, a.e, a.next, s'))
    ensures !Stamps(a, h)
  {
    if a.Update? && a.e.invoice.state == SETTLED {
      assert InvoiceTrue(s.settled, a.e.invoice);
    }
  }

  lemma MissedStep(e: Env, s: System, a: Action, s': System, h: Bytes)
    requires Next(e, s, a, s') && Dated(s) && LogTrue(s.settled, s.log) && Keeps(s.settled, s'.settled) && Missed(s, h)
    ensures Missed(s', h)
  {
    MissedIsNotStamped(s, a, s', h);
    UndatedStep(e, s, a, s', h);
    if a.StartChallenger? {
      ListingCovers(s, a.listed, s', h);
    }
  }

  lemma MissedNext(e: Env, ss: seq<System>, acts: seq<Action>, n: nat, h: Bytes)
    requires Run(e, ss, acts) && n < |acts| && Missed(ss[n], h)
    ensures Missed(ss[n + 1], h)
  {
    InvAlongRun(e, ss, acts, n);
    ProgressAlongRun(e, ss, acts, n);
    MissedStep(e, ss[n], acts[n], ss[n + 1], h);
  }

  lemma {:induction false} StaysMissed(ss: seq<System>, n: nat, m: nat, h: Bytes)
    requires n <= m < |ss| && Missed(ss[n], h)
    requires forall i | n <= i < m :: Missed(ss[i], h) ==> Missed(ss[i + 1], h)
    ensures Missed(ss[m], h)
    decreases m
  {
    if n < m {
      StaysMissed(ss, n, m - 1, h);
    }
  }

  lemma MissedForever(e: Env, ss: seq<System>, acts: seq<Action>, n: nat, m: nat, h: Bytes)
    requires Run(e, ss, acts) && n <= m <= |acts| && Missed(ss[n], h)
    ensures Missed(ss[m], h)
  {
    forall i | n <= i < m && Missed(ss[i], h) ensures Missed(ss[i + 1], h) {
      MissedNext(e, ss, acts, i, h);
    }
    StaysMissed(ss, n, m, h);
  }

  lemma MissedAtStart(e: Env, ss: seq<System>, acts: seq<Action>, n: nat, h: Bytes)
    requires Run(e, ss, acts) && n < |acts| && acts[n].StartChallenger? && IsSettled(ss[n].world, h)
    requires Undated(ss[n], h)
    ensures Missed(ss[n + 1], h)
  {
    ProgressAlongRun(e, ss, acts, n);
    ListingCovers(ss[n], acts[n].listed, ss[n + 1], h);
  }

  lemma MissedIsRefused(e: Env, ss: seq<System>, at: Reads, mac: Macaroon, preimage: Bytes32, target: string, v: View)
    requires at.query < |ss| && Missed(ss[at.query], e.relay.sha(preimage))
    ensures !Accepted(e, ss, at, mac, preimage, target, v)
  {
    UndatedIsNotRecent(ss[at.query], e.relay.sha(preimage), v.settledAt, v.now);
  }

  lemma UndatedIsNotRecent(s: System, h: Bytes, r: Option<Option<int>>, now: int)
    requires Undated(s, h)
    ensures !(Queried(s.rows, h, r) && WithinExpiry(r, RIGHT_EXPIRY, now))
  {
  }

  /** In every run: if a hold invoice has settled and no row of it is dated when the challenger starts, then
      no token for it is accepted at any later time, through any further restarts. */
  lemma SettledWhileDownIsRefused(e: Env, ss: seq<System>, acts: seq<Action>, n: nat, at: Reads, mac: Macaroon,
                                  preimage: Bytes32, target: string, v: View)
    requires Run(e, ss, acts) && n < |acts| && acts[n].StartChallenger? && n < at.query < |ss|
    requires IsSettled(ss[n].world, e.relay.sha(preimage)) && Undated(ss[n], e.relay.sha(preimage))
    ensures !Accepted(e, ss, at, mac, preimage, target, v)
  {
    MissedAtStart(e, ss, acts, n, e.relay.sha(preimage));
    MissedForever(e, ss, acts, n + 1, at.query, e.relay.sha(preimage));
    MissedIsRefused(e, ss, at, mac, preimage, target, v);
  }

  /** Row r belongs to hash h and carries lnd's settle date for it. */
  ghost predicate RowDated(s: System, r: nat, h: Bytes) {
    && r < |s.rows| && s.rows[r].paymentHash == h
    && h in s.settled && s.rows[r].settledAt == Some(s.settled[h].date)
  }

  /** A row that is there when a settlement is recorded has lnd's settle date ever after. */
  lemma StampedStaysDated(e: Env, ss: seq<System>, acts: seq<Action>, i: nat, n: nat, r: nat)
    requires Run(e, ss, acts) && i < n <= |acts| && StampsRow(ss, acts, i, r)
    ensures RowDated(ss[n], r, ss[i].rows[r].paymentHash)
  {
    HistoryOf(e, ss, acts, r);
    StampedIsDated(ss, acts, i, n, r);
    InvAlongRun(e, ss, acts, n);
  }

  // ---------------------------------------------------------------- who is accepted

  /** Rows keep their identifiers and secrets. */
  ghost predicate RowsKept(rows: seq<Row>, rows': seq<Row>) {
    && |rows| <= |rows'|
    && forall r | 0 <= r < |rows| :: rows'[r].idHash == rows[r].idHash && rows'[r].secret == rows[r].secret
  }

  lemma StoreStep(e: Env, s: System, a: Action, s': System)
    requires Next(e, s, a, s')
    ensures RowsKept(s.rows, s'.rows)
  {
    if a.MintToken? {
      MintKeepsStore(e.relay.sha, a.services, a.inputs, s.rows, s.issued, s'.rows, s'.issued, a.r);
    }
  }

  lemma {:induction false} RowsStay(ss: seq<System>, n: nat, m: nat)
    requires n <= m < |ss| && forall i | n <= i < m :: RowsKept(ss[i].rows, ss[i + 1].rows)
    ensures RowsKept(ss[n].rows, ss[m].rows)
    decreases m
  {
    if n < m {
      RowsStay(ss, n, m - 1);
      assert RowsKept(ss[m - 1].rows, ss[m].rows);
    }
  }

  /** The store of any later state still knows the tokens minted in it. */
  lemma LaterInRun(e: Env, ss: seq<System>, acts: seq<Action>, n: nat, m: nat)
    requires Run(e, ss, acts) && n <= m <= |acts|
    ensures Later(ss[n].rows, ss[m].rows)
  {
    forall i | n <= i < m ensures RowsKept(ss[i].rows, ss[i + 1].rows) {
      StoreStep(e, ss[i], acts[i], ss[i + 1]);
    }
    RowsStay(ss, n, m);
    InvAlongRun(e, ss, acts, m);
  }

  /** What a call of Accept sees that asks for the invoice of a preimage and whose query returns row r. */
  ghost predicate Sees(e: Env, ss: seq<System>, at: Reads, preimage: Bytes32, r: nat, v: View) {
    && at.verify <= at.status <= at.query <= at.clock < |ss|
    && at.call < |ss[at.status].wait.calls|
    && var c := ss[at.status].wait.calls[at.call];
    && c.hash == e.relay.sha(preimage) && c.wanted == SETTLED && InvoiceWait.ReturnsNil(c)
    && r < |ss[at.query].rows| && ss[at.query].rows[r].paymentHash == e.relay.sha(preimage)
    && v == View(ss[at.verify].rows, UnixTime(ss[at.verify].now / SECOND), c.read,
                 Some(ss[at.query].rows[r].settledAt), ss[at.clock].now)
  }

  lemma SeesDecides(e: Env, ss: seq<System>, at: Reads, mac: Macaroon, preimage: Bytes32, target: string, r: nat,
                    v: View)
    requires Sees(e, ss, at, preimage, r, v)
    ensures Accepted(e, ss, at, mac, preimage, target, v)
       <==> && Verifies(e.relay.sha, ss[at.verify].rows, mac, preimage, target, v.nowSec)
            && WithinExpiry(v.settledAt, RIGHT_EXPIRY, v.now)
  {
    var rows, h := ss[at.query].rows, e.relay.sha(preimage);
    assert rows[r].paymentHash == h && v.settledAt == Some(rows[r].settledAt);
    assert Queried(rows, h, v.settledAt);
  }

  /** The token allows the target at that time. */
  ghost predicate Allows(services: seq<Service>, inputs: MintInputs, target: string, nowSec: int) {
    services != [] ==>
      && EncodedServices(services).Ok?
      && var limits := Readable(RawAll(LimitsOf(services, inputs)));
      && ChainHolds(ServicesSatisfier(target), [ServicesCaveat(services)] + Chain(limits, COND_SERVICES))
      && ChainHolds(TimeoutSatisfier(target, nowSec), Chain(limits, target + TIMEOUT_SUFFIX))
  }

  lemma MintedVerifies(e: Env, ss: seq<System>, acts: seq<Action>, m: nat, n: nat, preimage: Bytes32, target: string,
                       nowSec: int) returns (paymentHash: Bytes32)
    requires Run(e, ss, acts) && m < n <= |acts| && acts[m].MintToken? && acts[m].r.Some?
    ensures exists recipient, price ::
              && TopPrice(acts[m].services, recipient, price)
              && acts[m].inputs.challenge(recipient, price) == Some((acts[m].r.value.1, paymentHash))
    ensures Verifies(e.relay.sha, ss[n].rows, acts[m].r.value.0, preimage, target, nowSec)
       <==> e.relay.sha(preimage) == paymentHash && Allows(acts[m].services, acts[m].inputs, target, nowSec)
  {
    var a := acts[m];
    assert Next(e, ss[m], a, ss[m + 1]);
    LaterInRun(e, ss, acts, m + 1, n);
    paymentHash := TokenCompleteness(e.relay.sha, a.services, a.inputs, ss[m].rows, ss[m].issued, ss[m + 1].rows,
                                     ss[m + 1].issued, a.r.value.0, a.r.value.1, ss[n].rows, preimage, target, nowSec);
  }

  /** In every run: a token minted at step m, presented later by somebody whose invoice the challenger reports
      settled and whose query returns a row stamped at step i, is accepted exactly when the preimage pays the
      token's challenge, the token allows the target, and no more than an hour has passed since lnd's settle
      date. */
  lemma AcceptedIff(e: Env, ss: seq<System>, acts: seq<Action>, m: nat, i: nat, r: nat, at: Reads, preimage: Bytes32,
                    target: string, v: View) returns (paymentHash: Bytes32)
    requires Run(e, ss, acts) && Sees(e, ss, at, preimage, r, v)
    requires m < at.verify && acts[m].MintToken? && acts[m].r.Some? && i < at.query && StampsRow(ss, acts, i, r)
    ensures exists recipient, price ::
              && TopPrice(acts[m].services, recipient, price)
              && acts[m].inputs.challenge(recipient, price) == Some((acts[m].r.value.1, paymentHash))
    ensures var h := e.relay.sha(preimage);
            && h in ss[at.query].settled
            && (Accepted(e, ss, at, acts[m].r.value.0, preimage, target, v) <==>
                  && h == paymentHash && Allows(acts[m].services, acts[m].inputs, target, v.nowSec)
                  && ss[at.clock].now <= (ss[at.query].settled[h].date + 3600) * 1_000_000_000)
  {
    paymentHash := MintedVerifies(e, ss, acts, m, at.verify, preimage, target, v.nowSec);
    SeesDecides(e, ss, at, acts[m].r.value.0, preimage, target, r, v);
    StampedRow(e, ss, acts, i, at.query, r);
  }

  lemma StampedRow(e: Env, ss: seq<System>, acts: seq<Action>, i: nat, n: nat, r: nat)
    requires Run(e, ss, acts) && i < n <= |acts| && StampsRow(ss, acts, i, r)
    ensures r < |ss[n].rows| && RowDated(ss[n], r, ss[n].rows[r].paymentHash)
  {
    StampedStaysDated(e, ss, acts, i, n, r);
  }
}
