/** Block heights: how far apart the two HTLCs of a circuit expire, and why a paid circuit can still settle. */
module RelayTimelocks {
  import opened Words
  import opened RelayWrap
  import opened RelayCircuits

  ghost predicate LimitSet(e: Env, c: Circuit) {
    c.cltvLimit == CltvLimit(e.rp, c.delta)
  }

  lemma LimitStep(e: Env, w: World, a: Action, w': World, k: nat)
    requires Next(e, w, a, w') && k < |w'.circuits| && (k < |w.circuits| ==> LimitSet(e, w.circuits[k]))
    ensures LimitSet(e, w'.circuits[k])
  {
  }

  lemma {:induction false} LimitsAlongRun(e: Env, ws: seq<World>, acts: seq<Action>, n: nat, k: nat)
    requires Run(e, ws, acts) && n <= |acts| && k < |ws[n].circuits|
    ensures LimitSet(e, ws[n].circuits[k])
  {
    if k < |ws[n - 1].circuits| {
      LimitsAlongRun(e, ws, acts, n - 1, k);
    }
    LimitStep(e, ws[n - 1], acts[n - 1], ws[n], k);
  }

  /** The gap of one circuit: its payment keeps within the limit and expires Alpha blocks before the incoming
      HTLC, less the blocks mined between lnd's report and the payment. */
  ghost predicate Gap(e: Env, c: Circuit, out: Payment) {
    && e.rp.cltvDeltaAlpha <= c.delta && c.cltvLimit == c.delta - e.rp.cltvDeltaAlpha == out.cltvLimit
    && c.watchHeight <= out.sentHeight
    && out.outExpiry + e.rp.cltvDeltaAlpha <= c.watchHeight + c.delta + (out.sentHeight - c.watchHeight)
  }

  lemma GapOf(e: Env, w: World, k: nat)
    requires Inv(e, w) && k < |w.circuits| && w.circuits[k].hash in w.payments && LimitSet(e, w.circuits[k])
    ensures e.rp.cltvDeltaAlpha <= w.circuits[k].delta <==> Gap(e, w.circuits[k], w.payments[w.circuits[k].hash])
    ensures w.circuits[k].hash in w.holds
    ensures w.holds[w.circuits[k].hash].state.Accepted? ==>
              w.holds[w.circuits[k].hash].state.expiryHeight == w.circuits[k].watchHeight + w.circuits[k].delta
  {
    assert FitsAt(e, w, k);
    DeltaDifference(w.circuits[k].delta, e.rp.cltvDeltaAlpha);
  }

  /** In every state of every run, for every circuit whose payment has been sent: if lnd reported at least the
      CLTV delta the wrapped invoice asked for, and the estimate behind that quote did not wrap, the payment
      was given the estimated route plus Beta, and the two HTLCs keep their gap. */
  lemma TimelockGap(e: Env, ws: seq<World>, acts: seq<Action>, n: nat, k: nat) returns (j: nat)
    requires Run(e, ws, acts) && n <= |acts| && k < |ws[n].circuits| && ws[n].circuits[k].hash in ws[n].payments
    requires ws[n].circuits[k].cltvExpiry <= ws[n].circuits[k].delta
    ensures j < n && OpenedBy(e, acts[j], ws[n].circuits[k]) && acts[j].inputs.estimate.Some?
    ensures var c, route := ws[n].circuits[k], acts[j].inputs.estimate.value.1;
            route + e.rp.cltvDeltaBeta + e.rp.cltvDeltaAlpha < TWO_64 ==>
              Gap(e, c, ws[n].payments[c.hash]) && route + e.rp.cltvDeltaBeta <= c.cltvLimit
    ensures var c := ws[n].circuits[k];
            c.hash in ws[n].holds && (ws[n].holds[c.hash].state.Accepted? ==>
              ws[n].holds[c.hash].state.expiryHeight == c.watchHeight + c.delta)
  {
    j := CircuitsWereOpened(e, ws, acts, n, k);
    LimitsAlongRun(e, ws, acts, n, k);
    InvAlongRun(e, ws, acts, n);
    GapOf(e, ws[n], k);
    var i := acts[j].inputs;
    QuoteTerms(e.rp, i, Wrap(e.rp, i).value);
    if i.estimate.value.1 + e.rp.cltvDeltaBeta + e.rp.cltvDeltaAlpha < TWO_64 {
      CltvLimitCoversRoute(e.rp, i, Wrap(e.rp, i).value, ws[n].circuits[k].delta);
    }
  }

  // ---------------------------------------------------------------- a paid circuit can still settle

  /** lnd cancels an accepted invoice on its own only within margin blocks of the incoming HTLC's expiry, and
      an outgoing HTLC is resolved by its expiry. */
  ghost predicate Timely(w: World, a: Action, margin: nat) {
    && (a.LndCancels? && a.h in w.holds && w.holds[a.h].state.Accepted? ==>
          w.holds[a.h].state.expiryHeight <= w.height + margin)
    && (a.PaymentSucceeds? && a.h in w.payments ==> w.height <= w.payments[a.h].outExpiry)
  }

  ghost predicate TimelyRun(e: Env, ws: seq<World>, acts: seq<Action>, margin: nat) {
    Run(e, ws, acts) && forall i | 0 <= i < |acts| :: Timely(ws[i], acts[i], margin)
  }

  /** An invoice that lnd took away from a sending or paying circuit had come close to its expiry. */
  ghost predicate OnTime(w: World, c: Circuit, margin: nat) {
    c.hash in w.holds && w.holds[c.hash].state == Canceled(false) && (c.phase.Sending? || c.hash in w.payments) ==>
      c.watchHeight + c.delta <= w.height + margin
  }

  lemma WhoCancels(e: Env, w: World, a: Action, w': World, h: Bytes)
    requires Next(e, w, a, w') && h in w'.holds && w'.holds[h].state == Canceled(false)
    ensures h in w.holds
    ensures w.holds[h].state == Canceled(false)
         || (&& a == LndCancels(h) && w' == w.(holds := w'.holds)
             && (w.holds[h].state.Open? || w.holds[h].state.Accepted?))
  {
  }

  /** Once lnd has taken the invoice, its circuit is neither watched nor paid anew. */
  lemma WhileCanceled(e: Env, w: World, a: Action, w': World, k: nat)
    requires Next(e, w, a, w') && Distinct(w.circuits) && k < |w.circuits|
    requires w.circuits[k].hash in w.holds && w.holds[w.circuits[k].hash].state == Canceled(false)
    ensures k < |w'.circuits| && w'.circuits[k].hash == w.circuits[k].hash && w.height <= w'.height
    ensures w'.circuits[k].watchHeight == w.circuits[k].watchHeight && w'.circuits[k].delta == w.circuits[k].delta
    ensures w'.circuits[k].phase.Sending? || w'.circuits[k].hash in w'.payments ==>
              w.circuits[k].phase.Sending? || w.circuits[k].hash in w.payments
  {
  }

  lemma OnTimeStep(e: Env, w: World, a: Action, w': World, margin: nat, k: nat)
    requires Next(e, w, a, w') && Timely(w, a, margin) && Distinct(w.circuits) && k < |w'.circuits| && FitsAt(e, w', k)
    requires k < |w.circuits| ==> FitsAt(e, w, k) && OnTime(w, w.circuits[k], margin)
    ensures OnTime(w', w'.circuits[k], margin)
  {
    TermsStep(e, w, a, w', k);
    var h := w'.circuits[k].hash;
    if w'.holds[h].state == Canceled(false) {
      WhoCancels(e, w, a, w', h);
      if k < |w.circuits| && w.holds[h].state == Canceled(false) {
        WhileCanceled(e, w, a, w', k);
      }
    }
  }

  ghost predicate OnTimeAt(w: World, k: nat, margin: nat) {
    k < |w.circuits| ==> OnTime(w, w.circuits[k], margin)
  }

  lemma OnTimeNext(e: Env, ws: seq<World>, acts: seq<Action>, margin: nat, n: nat, k: nat)
    requires TimelyRun(e, ws, acts, margin) && n < |acts| && OnTimeAt(ws[n], k, margin)
    ensures OnTimeAt(ws[n + 1], k, margin)
  {
    FitsAlongRun(e, ws, acts, n, k);
    FitsAlongRun(e, ws, acts, n + 1, k);
    if k < |ws[n + 1].circuits| {
      OnTimeStep(e, ws[n], acts[n], ws[n + 1], margin, k);
    }
  }

  lemma {:induction false} OnTimeThroughout(ws: seq<World>, margin: nat, n: nat, k: nat)
    requires n < |ws| && OnTimeAt(ws[0], k, margin)
    requires forall i | 0 <= i < n :: OnTimeAt(ws[i], k, margin) ==> OnTimeAt(ws[i + 1], k, margin)
    ensures OnTimeAt(ws[n], k, margin)
  {
    if n > 0 {
      OnTimeThroughout(ws, margin, n - 1, k);
    }
  }

  lemma OnTimeAlongRun(e: Env, ws: seq<World>, acts: seq<Action>, margin: nat, n: nat, k: nat)
    requires TimelyRun(e, ws, acts, margin) && n <= |acts|
    ensures OnTimeAt(ws[n], k, margin)
  {
    forall i | 0 <= i < n && OnTimeAt(ws[i], k, margin) ensures OnTimeAt(ws[i + 1], k, margin) {
      OnTimeNext(e, ws, acts, margin, i, k);
    }
    OnTimeThroughout(ws, margin, n, k);
  }

  /** The incoming HTLC of a paid circuit is still there, or has been settled, until margin blocks before its
      expiry. */
  lemma StillAccepted(e: Env, ws: seq<World>, acts: seq<Action>, margin: nat, n: nat, k: nat)
    requires TimelyRun(e, ws, acts, margin) && n <= |acts| && k < |ws[n].circuits|
    requires var c := ws[n].circuits[k];
             && c.hash in ws[n].payments && !ws[n].payments[c.hash].state.Failed?
             && ws[n].height + margin < c.watchHeight + c.delta
    ensures ws[n].circuits[k].hash in ws[n].holds
    ensures var hold := ws[n].holds[ws[n].circuits[k].hash]; hold.state.Accepted? || hold.state.Settled?
  {
    FitsAlongRun(e, ws, acts, n, k);
    OnTimeAlongRun(e, ws, acts, margin, n, k);
  }

  /** At the moment an outgoing payment succeeds, the relay has time left to settle: at least Alpha blocks less
      the margin and less the blocks mined between lnd's report and the payment. */
  lemma SuccessLeavesTime(e: Env, ws: seq<World>, acts: seq<Action>, margin: nat, n: nat, k: nat)
    requires TimelyRun(e, ws, acts, margin) && n < |acts| && k < |ws[n].circuits|
    requires acts[n].PaymentSucceeds? && acts[n].h == ws[n].circuits[k].hash && acts[n].h in ws[n].payments
    requires var c, out := ws[n].circuits[k], ws[n].payments[acts[n].h];
             margin + (out.sentHeight - c.watchHeight) < e.rp.cltvDeltaAlpha <= c.delta
    ensures acts[n].h in ws[n + 1].holds && ws[n + 1].holds[acts[n].h].state.Accepted?
    ensures var c, out := ws[n].circuits[k], ws[n].payments[acts[n].h];
            ws[n + 1].height + e.rp.cltvDeltaAlpha <= c.watchHeight + c.delta + (out.sentHeight - c.watchHeight)
  {
    LimitsAlongRun(e, ws, acts, n, k);
    InvAlongRun(e, ws, acts, n);
    GapOf(e, ws[n], k);
    SucceedsInTime(e, ws, acts, margin, n, k);
  }

  lemma SucceedsInTime(e: Env, ws: seq<World>, acts: seq<Action>, margin: nat, n: nat, k: nat)
    requires TimelyRun(e, ws, acts, margin) && n < |acts| && k < |ws[n].circuits|
    requires acts[n].PaymentSucceeds? && acts[n].h == ws[n].circuits[k].hash && acts[n].h in ws[n].payments
    requires ws[n].payments[acts[n].h].outExpiry + margin < ws[n].circuits[k].watchHeight + ws[n].circuits[k].delta
    ensures ws[n].height <= ws[n].payments[acts[n].h].outExpiry && ws[n + 1].height == ws[n].height
    ensures acts[n].h in ws[n + 1].holds && ws[n + 1].holds[acts[n].h].state.Accepted?
  {
    assert Timely(ws[n], acts[n], margin) && Next(e, ws[n], acts[n], ws[n + 1]);
    StillAccepted(e, ws, acts, margin, n, k);
    FitsAlongRun(e, ws, acts, n, k);
  }

  /** And as long as that time is not used up, a running relay settles a paid circuit with its next steps. */
  lemma PaidCanSettle(e: Env, ws: seq<World>, acts: seq<Action>, margin: nat, n: nat, k: nat)
    returns (w1: World, w2: World)
    requires TimelyRun(e, ws, acts, margin) && n <= |acts| && k < |ws[n].circuits| && ws[n].running
    requires var c := ws[n].circuits[k];
             && (c.phase.Paying? || c.phase.Settling?) && Paid(PaymentOf(ws[n], c.hash))
             && ws[n].height + margin < c.watchHeight + c.delta
    ensures (ws[n].circuits[k].phase.Paying? && Next(e, ws[n], PayReturnsPreimage(k), w1))
         || (ws[n].circuits[k].phase.Settling? && w1 == ws[n])
    ensures Next(e, w1, Settle(k, true), w2)
    ensures var h := ws[n].circuits[k].hash;
            h in w2.holds && w2.holds[h].state.Settled? && w2.circuits[k].phase.Finished?
  {
    StillAccepted(e, ws, acts, margin, n, k);
    FitsAlongRun(e, ws, acts, n, k);
    var c := ws[n].circuits[k];
    var p := ws[n].payments[c.hash].state.preimage;
    w1 := if c.phase.Paying? then Move(ws[n], k, Settling(p)) else ws[n];
    w2 := Move(SettleHold(w1, c.hash, p), k, Finished);
    assert SettleStep(e, w1, k, true, w2);
  }
}
