/** The challenger's cache of invoice states: filled from ListInvoices by Start, kept current by
    readInvoiceStream, which also records settle dates for the secrets that wait for them. */
module InvoiceCache {
  import opened Words
  import opened Identifiers

  datatype InvoiceState = OPEN | SETTLED | CANCELED | ACCEPTED

  datatype Invoice = Invoice(rHash: Option<Bytes>, addIndex: uint64, settleIndex: uint64, state: InvoiceState,
                             creationDate: int, expiry: int, settleDate: int)

  /** An invoice together with the clock, in nanoseconds, when it was looked at. */
  datatype Event = Event(invoice: Invoice, now: int, dbFails: bool)

  /** invoiceIrrelevant: canceled, or expired without being settled. The expiry goes through a
      time.Duration, an int64 of nanoseconds. */
  predicate Irrelevant(e: Event) {
    var expiration := e.invoice.creationDate * 1_000_000_000 + WrapSigned64(e.invoice.expiry * 1_000_000_000);
    || e.invoice.state == CANCELED
    || (expiration < e.now && (e.invoice.state == OPEN || e.invoice.state == ACCEPTED))
  }

  /** lntypes.MakeHash. */
  function HashOf(e: Event): Option<Bytes32> {
    if e.invoice.rHash.Some? && |e.invoice.rHash.value| == 32 then Some(e.invoice.rHash.value) else None
  }

  predicate BadHash(e: Event) {
    e.invoice.rHash.Some? && |e.invoice.rHash.value| != 32
  }

  /** A canceled invoice is irrelevant and a settled one never; an open or accepted one becomes irrelevant the
      moment its creation plus its expiry has passed, and stays so. */
  lemma RelevanceOverTime(e: Event, later: int)
    requires -TWO_63 <= e.invoice.expiry * 1_000_000_000 < TWO_63 && e.now <= later
    ensures e.invoice.state == CANCELED ==> Irrelevant(e)
    ensures e.invoice.state == SETTLED ==> !Irrelevant(e)
    ensures e.invoice.state == OPEN || e.invoice.state == ACCEPTED ==>
              (Irrelevant(e) <==> (e.invoice.creationDate + e.invoice.expiry) * 1_000_000_000 < e.now)
    ensures Irrelevant(e) ==> Irrelevant(e.(now := later))
  {
  }

  // ---------------------------------------------------------------- the simple specification

  function Lookup(m: map<Bytes32, InvoiceState>, h: Bytes32): Option<InvoiceState> {
    if h in m then Some(m[h]) else None
  }

  /** The last relevant invoice listed for a hash. */
  function LastListed(es: seq<Event>, h: Bytes32): Option<InvoiceState> {
    if es == [] then None
    else
      var e := es[|es| - 1];
      if HashOf(e) == Some(h) && !Irrelevant(e) then Some(e.invoice.state) else LastListed(es[..|es| - 1], h)
  }

  /** The last event for a hash, present iff it was relevant when processed; None if there is no event. */
  function LastEvent(es: seq<Event>, h: Bytes32): Option<Option<InvoiceState>> {
    if es == [] then None
    else
      var e := es[|es| - 1];
      if HashOf(e) == Some(h) then Some(if Irrelevant(e) then None else Some(e.invoice.state))
      else LastEvent(es[..|es| - 1], h)
  }

  function FirstSome<T>(a: Option<T>, b: Option<T>): Option<T> {
    if a.Some? then a else b
  }

  function AddIndexOf(e: Event): uint64 {
    e.invoice.addIndex
  }

  function SettleIndexOf(e: Event): uint64 {
    e.invoice.settleIndex
  }

  lemma LastListedGrows(es: seq<Event>, i: nat, h: Bytes32)
    requires i < |es|
    ensures LastListed(es[..i + 1], h)
         == if HashOf(es[i]) == Some(h) && !Irrelevant(es[i]) then Some(es[i].invoice.state) else LastListed(es[..i], h)
  {
    assert es[..i + 1][..i] == es[..i];
  }

  function OrElse<T>(a: Option<T>, b: T): T {
    if a.Some? then a.value else b
  }

  /** The settle date the last successfully recorded settlement gives a hash that has a secret. */
  function LastSettle(es: seq<Event>, h: Bytes32, before: Option<int>): Option<int> {
    if es == [] then before
    else
      var e := es[|es| - 1];
      if HashOf(e) == Some(h) && e.invoice.state == SETTLED && !e.dbFails then Some(e.invoice.settleDate)
      else LastSettle(es[..|es| - 1], h, before)
  }

  // ---------------------------------------------------------------- the challenger

  datatype Recv = Update(event: Event) | Quit | Eof | ContextCanceled | RecvError

  /** The updates the reading loop acts on: it ends with the stream, at shutdown, or at a malformed hash. */
  function Acted(rs: seq<Recv>): seq<Event> {
    if rs == [] || !rs[0].Update? || BadHash(rs[0].event) then []
    else [rs[0].event] + Acted(rs[1..])
  }

  class Challenger {
    var invoiceStates: map<Bytes32, InvoiceState>
    /** settled_at of the rows of the secret store, by payment hash. */
    var settledAt: map<Bytes32, Option<int>>

    constructor (rows: set<Bytes32>)
      ensures invoiceStates == map[] && settledAt.Keys == rows && forall h | h in rows :: settledAt[h] == None
    {
      invoiceStates := map[];
      settledAt := map h | h in rows :: None;
    }

    /** Start: cache every relevant invoice listed and find the indices to subscribe from. A malformed hash
        ends it early. */
    method Start(listed: seq<Event>) returns (ok: bool, addIndex: uint64, settleIndex: uint64)
      modifies this`invoiceStates
      ensures ok <==> forall i | 0 <= i < |listed| :: !BadHash(listed[i])
      ensures ok ==> Caches(listed, old(invoiceStates), invoiceStates)
      ensures ok ==> IsMaximum(listed, AddIndexOf, addIndex) && IsMaximum(listed, SettleIndexOf, settleIndex)
    {
      addIndex, settleIndex := 0, 0;
      for i := 0 to |listed|
        invariant forall j | 0 <= j < i :: !BadHash(listed[j])
        invariant Caches(listed[..i], old(invoiceStates), invoiceStates)
        invariant IsMaximum(listed[..i], AddIndexOf, addIndex) && IsMaximum(listed[..i], SettleIndexOf, settleIndex)
      {
        var e := listed[i];
        MaximumGrows(listed, i, AddIndexOf, addIndex);
        MaximumGrows(listed, i, SettleIndexOf, settleIndex);
        CachesGrows(listed, i, old(invoiceStates), invoiceStates);
        if e.invoice.rHash.None? {
          continue;
        }
        if e.invoice.addIndex > addIndex {
          addIndex := e.invoice.addIndex;
        }
        if e.invoice.settleIndex > settleIndex {
          settleIndex := e.invoice.settleIndex;
        }
        if |e.invoice.rHash.value| != 32 {
          return false, addIndex, settleIndex;
        }
        if Irrelevant(e) {
          continue;
        }
        invoiceStates := invoiceStates[e.invoice.rHash.value := e.invoice.state];
      }
      assert listed[..|listed|] == listed;
      ok := true;
    }

    /** What readInvoiceStream does with one update, under the mutex. */
    method ProcessUpdate(e: Event)
      requires !BadHash(e)
      modifies this
      ensures forall h :: Lookup(invoiceStates, h) == OrElse(LastEvent([e], h), old(Lookup(invoiceStates, h)))
      ensures settledAt.Keys == old(settledAt.Keys)
      ensures forall h | h in settledAt :: settledAt[h] == LastSettle([e], h, old(settledAt[h]))
    {
      assert [e][..0] == [];
      assert forall h :: LastEvent([], h) == None;
      if e.invoice.rHash.None? {
        return;
      }
      var paymentHash := e.invoice.rHash.value;
      if Irrelevant(e) {
        invoiceStates := invoiceStates - {paymentHash};
      } else {
        invoiceStates := invoiceStates[paymentHash := e.invoice.state];
        if e.invoice.state == SETTLED && !e.dbFails && paymentHash in settledAt {
          settledAt := settledAt[paymentHash := Some(e.invoice.settleDate)];
        }
      }
    }

    /** readInvoiceStream. */
    method ReadInvoiceStream(rs: seq<Recv>)
      modifies this
      ensures forall h :: Lookup(invoiceStates, h) == OrElse(LastEvent(Acted(rs), h), old(Lookup(invoiceStates, h)))
      ensures settledAt.Keys == old(settledAt.Keys)
      ensures forall h | h in settledAt :: settledAt[h] == LastSettle(Acted(rs), h, old(settledAt[h]))
    {
      ghost var acted := [];
      var i := 0;
      assert rs[0..] == rs;
      while i < |rs|
        invariant 0 <= i <= |rs| && Acted(rs) == acted + Acted(rs[i..])
        invariant forall h :: Lookup(invoiceStates, h) == OrElse(LastEvent(acted, h), old(Lookup(invoiceStates, h)))
        invariant settledAt.Keys == old(settledAt.Keys)
        invariant forall h | h in settledAt :: settledAt[h] == LastSettle(acted, h, old(settledAt[h]))
      {
        if !rs[i].Update? {
          break;
        }
        var e := rs[i].event;
        if BadHash(e) {
          break;
        }
        assert Acted(rs[i..]) == [e] + Acted(rs[i + 1..]) by { assert rs[i..][1..] == rs[i + 1..]; }
        assert acted + ([e] + Acted(rs[i + 1..])) == (acted + [e]) + Acted(rs[i + 1..]);
        ProcessUpdate(e);
        forall h
          ensures LastEvent(acted + [e], h)
               == if LastEvent([e], h).Some? then LastEvent([e], h) else LastEvent(acted, h)
        {
          LastEventConcat(acted, [e], h);
        }
        forall h, before
          ensures LastSettle(acted + [e], h, before) == LastSettle([e], h, LastSettle(acted, h, before))
        {
          LastSettleGrows(acted, e, h, before);
        }
        acted := acted + [e];
        i := i + 1;
      }
      assert Acted(rs[i..]) == [];
      assert acted + [] == acted;
    }
  }

  /** The cache holds, for every hash, the last relevant invoice listed, or else what it held before. */
  ghost predicate Caches(es: seq<Event>, before: map<Bytes32, InvoiceState>, after: map<Bytes32, InvoiceState>) {
    forall h :: Lookup(after, h) == FirstSome(LastListed(es, h), Lookup(before, h))
  }

  lemma CachesGrows(es: seq<Event>, i: nat, before: map<Bytes32, InvoiceState>, after: map<Bytes32, InvoiceState>)
    requires i < |es| && Caches(es[..i], before, after)
    ensures HashOf(es[i]).None? || Irrelevant(es[i]) ==> Caches(es[..i + 1], before, after)
    ensures HashOf(es[i]).Some? && !Irrelevant(es[i]) ==>
              Caches(es[..i + 1], before, after[HashOf(es[i]).value := es[i].invoice.state])
  {
    forall h ensures LastListed(es[..i + 1], h)
                  == if HashOf(es[i]) == Some(h) && !Irrelevant(es[i]) then Some(es[i].invoice.state)
                     else LastListed(es[..i], h)
    {
      LastListedGrows(es, i, h);
    }
  }

  lemma LastSettleGrows(es: seq<Event>, e: Event, h: Bytes32, before: Option<int>)
    ensures LastSettle(es + [e], h, before) == LastSettle([e], h, LastSettle(es, h, before))
  {
    assert (es + [e])[..|es|] == es;
    assert [e][..0] == [];
  }

  /** m is the largest index among the listed invoices that have a hash, or 0. */
  ghost predicate IsMaximum(es: seq<Event>, index: Event -> uint64, m: uint64) {
    && (forall i | 0 <= i < |es| && es[i].invoice.rHash.Some? :: index(es[i]) <= m)
    && (m == 0 || exists i :: 0 <= i < |es| && es[i].invoice.rHash.Some? && index(es[i]) == m)
  }

  lemma MaximumGrows(es: seq<Event>, i: nat, index: Event -> uint64, m: uint64)
    requires i < |es| && IsMaximum(es[..i], index, m)
    ensures es[i].invoice.rHash.None? ==> IsMaximum(es[..i + 1], index, m)
    ensures es[i].invoice.rHash.Some? ==> IsMaximum(es[..i + 1], index, if index(es[i]) > m then index(es[i]) else m)
  {
    var s := es[..i + 1];
    assert forall j | 0 <= j < i :: s[j] == es[..i][j];
    assert s[i] == es[i];
    if m != 0 {
      var j :| 0 <= j < i && es[..i][j].invoice.rHash.Some? && index(es[..i][j]) == m;
      assert s[j].invoice.rHash.Some? && index(s[j]) == m;
    }
    if es[i].invoice.rHash.Some? && index(es[i]) > m {
      assert s[i].invoice.rHash.Some? && index(s[i]) == index(es[i]);
    }
  }

  // ---------------------------------------------------------------- one specification for both phases

  ghost predicate DistinctHashes(es: seq<Event>) {
    forall i, j | 0 <= i < j < |es| && HashOf(es[i]).Some? :: HashOf(es[i]) != HashOf(es[j])
  }

  lemma {:induction false} LastEventConcat(a: seq<Event>, b: seq<Event>, h: Bytes32)
    ensures LastEvent(a + b, h) == if LastEvent(b, h).Some? then LastEvent(b, h) else LastEvent(a, h)
  {
    if b == [] {
      assert a + b == a;
    } else {
      var n := |b| - 1;
      assert (a + b)[..|a + b| - 1] == a + b[..n];
      LastEventConcat(a, b[..n], h);
    }
  }

  lemma {:induction false} NoEarlierListing(es: seq<Event>, h: Bytes32)
    requires forall i | 0 <= i < |es| :: HashOf(es[i]) != Some(h)
    ensures LastListed(es, h) == None
  {
    if es != [] {
      NoEarlierListing(es[..|es| - 1], h);
    }
  }

  lemma {:induction false} ListedIsLastEvent(es: seq<Event>, h: Bytes32)
    requires DistinctHashes(es)
    ensures LastListed(es, h) == OrElse(LastEvent(es, h), None)
  {
    if es != [] {
      var n := |es| - 1;
      if HashOf(es[n]) == Some(h) {
        forall i | 0 <= i < n ensures HashOf(es[..n][i]) != Some(h) {
          assert HashOf(es[i]) != HashOf(es[n]);
        }
        NoEarlierListing(es[..n], h);
      } else {
        ListedIsLastEvent(es[..n], h);
      }
    }
  }

  /** lnd lists a hash once; then listing followed by any updates leaves, for every hash, exactly its last
      event, present iff it was relevant when processed. */
  lemma CacheRefinement(listed: seq<Event>, updates: seq<Event>, h: Bytes32)
    requires DistinctHashes(listed)
    ensures OrElse(LastEvent(updates, h), LastListed(listed, h)) == OrElse(LastEvent(listed + updates, h), None)
  {
    LastEventConcat(listed, updates, h);
    ListedIsLastEvent(listed, h);
  }

  /** The whole life of a challenger: Start on an empty cache, then the stream. */
  method Serve(rows: set<Bytes32>, listed: seq<Event>, rs: seq<Recv>) returns (c: Challenger, ok: bool)
    ensures ok <==> forall i | 0 <= i < |listed| :: !BadHash(listed[i])
    ensures ok && DistinctHashes(listed) ==>
              forall h :: Lookup(c.invoiceStates, h) == OrElse(LastEvent(listed + Acted(rs), h), None)
    ensures ok ==> c.settledAt.Keys == rows && forall h | h in rows :: c.settledAt[h] == LastSettle(Acted(rs), h, None)
  {
    c := new Challenger(rows);
    var addIndex, settleIndex;
    ok, addIndex, settleIndex := c.Start(listed);
    if !ok {
      return;
    }
    ghost var listing := c.invoiceStates;
    c.ReadInvoiceStream(rs);
    if DistinctHashes(listed) {
      forall h ensures Lookup(c.invoiceStates, h) == OrElse(LastEvent(listed + Acted(rs), h), None) {
        CacheRefinement(listed, Acted(rs), h);
        assert Lookup(listing, h) == LastListed(listed, h);
      }
    }
  }

  // ---------------------------------------------------------------- the specification by position

  /** Event j is the last for hash h. */
  ghost predicate LastFor(es: seq<Event>, h: Bytes32, j: nat) {
    && j < |es| && es[j].invoice.rHash == Some(h)
    && forall k | j < k < |es| :: es[k].invoice.rHash != Some(h)
  }

  lemma {:induction false} LastEventAt(es: seq<Event>, h: Bytes32, j: nat)
    requires LastFor(es, h, j)
    ensures LastEvent(es, h) == Some(if Irrelevant(es[j]) then None else Some(es[j].invoice.state))
  {
    var n := |es| - 1;
    if j < n {
      assert es[n].invoice.rHash != Some(h);
      LastEventAt(es[..n], h, j);
    }
  }

  lemma {:induction false} NoEventFor(es: seq<Event>, h: Bytes32)
    requires forall k | 0 <= k < |es| :: es[k].invoice.rHash != Some(h)
    ensures LastEvent(es, h) == None
  {
    if es != [] {
      NoEventFor(es[..|es| - 1], h);
    }
  }

  /** Which updates are acted on: all up to the first that is none or has a malformed hash. */
  lemma {:induction false} ActedAre(rs: seq<Recv>, n: nat)
    requires n <= |rs| && forall i | 0 <= i < n :: rs[i].Update? && !BadHash(rs[i].event)
    requires n < |rs| ==> !rs[n].Update? || BadHash(rs[n].event)
    ensures |Acted(rs)| == n && forall i | 0 <= i < n :: Acted(rs)[i] == rs[i].event
  {
    if n > 0 {
      ActedAre(rs[1..], n - 1);
      assert forall i | 1 <= i < n :: rs[i] == rs[1..][i - 1];
    }
  }

  /** Event j is the last settlement of hash h that was recorded. */
  ghost predicate LastRecorded(es: seq<Event>, h: Bytes32, j: nat) {
    && j < |es| && Records(es[j], h) && forall k | j < k < |es| :: !Records(es[k], h)
  }

  predicate Records(e: Event, h: Bytes32) {
    e.invoice.rHash == Some(h) && e.invoice.state == SETTLED && !e.dbFails
  }

  lemma {:induction false} LastSettleAt(es: seq<Event>, h: Bytes32, before: Option<int>, j: nat)
    requires LastRecorded(es, h, j)
    ensures LastSettle(es, h, before) == Some(es[j].invoice.settleDate)
  {
    var n := |es| - 1;
    if j < n {
      assert !Records(es[n], h);
      LastSettleAt(es[..n], h, before, j);
    }
  }

  lemma {:induction false} NothingRecorded(es: seq<Event>, h: Bytes32, before: Option<int>)
    requires forall k | 0 <= k < |es| :: !Records(es[k], h)
    ensures LastSettle(es, h, before) == before
  {
    if es != [] {
      assert !Records(es[|es| - 1], h);
      NothingRecorded(es[..|es| - 1], h, before);
    }
  }
}
