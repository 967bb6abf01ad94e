/** VerifyInvoiceStatus: any number of waiters, each with its timeout thread, and the stream reader share
    one mutex and one condition variable. Every lock, update, broadcast, wait and unlock is its own step. */
module InvoiceWait {
  import opened Words
  import opened Identifiers
  import opened InvoiceCache

  datatype Thread = Reader | Waiter(i: nat) | Timer(i: nat)

  /** The goroutine that blocks on the condition. Checking and Leaving hold the mutex. */
  datatype WaitPc = AtLock | Checking | Asleep | Woken | Leaving | Closing | Finished

  /** The goroutine that signals on timeout, completion or shutdown; the middle three hold the mutex. */
  datatype TimerPc = Selecting | TimerAtLock | TimerLocked | Flagged | TimerUnlocking | TimerDone

  datatype ReaderPc = Receiving | ReaderLocked | Updated | ReaderUnlocking

  /** One call of VerifyInvoiceStatus: its arguments and its shared local variables. readAt says which
      version of the cache the last locked read saw. */
  datatype Call = Call(hash: Bytes32, wanted: InvoiceState, born: nat, pc: WaitPc, timer: TimerPc,
                       timeoutReached: bool, done: bool, read: Option<InvoiceState>, readAt: nat)

  /** versions is every state the cache has been in; the last one is current. */
  datatype State = State(versions: seq<map<Bytes32, InvoiceState>>, mutex: Option<Thread>, reader: ReaderPc,
                         calls: seq<Call>)

  ghost predicate Init(s: State) {
    |s.versions| == 1 && s.mutex == None && s.reader == Receiving && s.calls == []
  }

  function Current(s: State): map<Bytes32, InvoiceState>
    requires s.versions != []
  {
    s.versions[|s.versions| - 1]
  }

  datatype Action =
    | NewCall(hash: Bytes32, wanted: InvoiceState)
    | WaiterLock(i: nat) | WaiterDecide(i: nat) | WaiterUnlock(i: nat) | WaiterClose(i: nat)
    | TimerFire(i: nat) | TimerLock(i: nat) | TimerFlag(i: nat) | TimerBroadcast(i: nat) | TimerUnlock(i: nat)
    | ReaderLock | ReaderUpdate(next: map<Bytes32, InvoiceState>) | ReaderBroadcast | ReaderUnlock

  function Wake(c: Call): Call {
    if c.pc == Asleep then c.(pc := Woken) else c
  }

  function WakeAll(cs: seq<Call>): (r: seq<Call>)
    ensures |r| == |cs| && forall i | 0 <= i < |cs| :: r[i] == Wake(cs[i])
  {
    seq(|cs|, i requires 0 <= i < |cs| => Wake(cs[i]))
  }

  function SetCall(s: State, i: nat, c: Call): State
    requires i < |s.calls|
  {
    s.(calls := s.calls[i := c])
  }

  ghost predicate WaiterLockStep(s: State, i: nat, s': State) {
    && i < |s.calls| && (s.calls[i].pc == AtLock || s.calls[i].pc == Woken) && s.mutex == None && s.versions != []
    && s' == SetCall(s, i, s.calls[i].(pc := Checking, read := Lookup(Current(s), s.calls[i].hash),
                                       readAt := |s.versions| - 1)).(mutex := Some(Waiter(i)))
  }

  /** The loop condition: Wait joins the condition's list and releases the mutex in one step. */
  ghost predicate WaiterDecideStep(s: State, i: nat, s': State) {
    && i < |s.calls| && s.calls[i].pc == Checking && s.mutex == Some(Waiter(i))
    && var c := s.calls[i];
       s' == if c.read != Some(c.wanted) && !c.timeoutReached then SetCall(s, i, c.(pc := Asleep)).(mutex := None)
             else SetCall(s, i, c.(pc := Leaving))
  }

  ghost predicate TimerStep(s: State, i: nat, from: TimerPc, to: TimerPc, s': State) {
    && i < |s.calls| && s.calls[i].timer == from
    && match from
       // done, the timeout or the quit channel: the select may take any of them at any time
       case Selecting => to == TimerAtLock && s' == SetCall(s, i, s.calls[i].(timer := to))
       case TimerAtLock =>
         && to == TimerLocked && s.mutex == None
         && s' == SetCall(s, i, s.calls[i].(timer := to)).(mutex := Some(Timer(i)))
       case TimerLocked =>
         to == Flagged && s' == SetCall(s, i, s.calls[i].(timer := to, timeoutReached := true))
       case Flagged =>
         && to == TimerUnlocking
         && var s1 := SetCall(s, i, s.calls[i].(timer := to));
            s' == s1.(calls := WakeAll(s1.calls))
       case TimerUnlocking =>
         && to == TimerDone && s.mutex == Some(Timer(i))
         && s' == SetCall(s, i, s.calls[i].(timer := to)).(mutex := None)
       case TimerDone => false
  }

  ghost predicate ReaderStep(s: State, from: ReaderPc, next: map<Bytes32, InvoiceState>, s': State) {
    && s.reader == from
    && match from
       case Receiving => s.mutex == None && s' == s.(reader := ReaderLocked, mutex := Some(Reader))
       case ReaderLocked => s' == s.(reader := Updated, versions := s.versions + [next])
       case Updated => s' == s.(reader := ReaderUnlocking, calls := WakeAll(s.calls))
       case ReaderUnlocking => s' == s.(reader := Receiving, mutex := None)
  }

  ghost predicate Next(s: State, a: Action, s': State) {
    match a
    case NewCall(hash, wanted) =>
      s' == s.(calls := s.calls + [Call(hash, wanted, |s.versions|, AtLock, Selecting, false, false, None, 0)])
    case WaiterLock(i) => WaiterLockStep(s, i, s')
    case WaiterDecide(i) => WaiterDecideStep(s, i, s')
    case WaiterUnlock(i) =>
      && i < |s.calls| && s.calls[i].pc == Leaving && s.mutex == Some(Waiter(i))
      && s' == SetCall(s, i, s.calls[i].(pc := Closing)).(mutex := None)
    case WaiterClose(i) =>
      && i < |s.calls| && s.calls[i].pc == Closing
      && s' == SetCall(s, i, s.calls[i].(pc := Finished, done := true))
    case TimerFire(i) => TimerStep(s, i, Selecting, TimerAtLock, s')
    case TimerLock(i) => TimerStep(s, i, TimerAtLock, TimerLocked, s')
    case TimerFlag(i) => TimerStep(s, i, TimerLocked, Flagged, s')
    case TimerBroadcast(i) => TimerStep(s, i, Flagged, TimerUnlocking, s')
    case TimerUnlock(i) => TimerStep(s, i, TimerUnlocking, TimerDone, s')
    case ReaderLock => ReaderStep(s, Receiving, map[], s')
    case ReaderUpdate(next) => ReaderStep(s, ReaderLocked, next, s')
    case ReaderBroadcast => ReaderStep(s, Updated, map[], s')
    case ReaderUnlock => ReaderStep(s, ReaderUnlocking, map[], s')
  }

  ghost predicate Run(ss: seq<State>, acts: seq<Action>) {
    && |ss| == |acts| + 1 && Init(ss[0])
    && forall i | 0 <= i < |acts| :: Next(ss[i], acts[i], ss[i + 1])
  }

  // ---------------------------------------------------------------- the invariant

  predicate WaiterHolds(c: Call) {
    c.pc == Checking || c.pc == Leaving
  }

  predicate TimerHolds(c: Call) {
    c.timer == TimerLocked || c.timer == Flagged || c.timer == TimerUnlocking
  }

  /** What holds of one call, given the mutex owner and the reader's place. */
  ghost predicate CallOk(s: State, i: nat)
    requires i < |s.calls| && s.versions != []
  {
    var c := s.calls[i];
    && (WaiterHolds(c) <==> s.mutex == Some(Waiter(i)))
    && (TimerHolds(c) <==> s.mutex == Some(Timer(i)))
    && (c.timeoutReached <==> c.timer == Flagged || c.timer == TimerUnlocking || c.timer == TimerDone)
    && (c.pc != AtLock ==>
          c.readAt < |s.versions| && c.born <= c.readAt + 1 && c.read == Lookup(s.versions[c.readAt], c.hash))
    && (c.pc == Checking || c.pc == Leaving ==> c.readAt == |s.versions| - 1)
    && (c.pc == Leaving || c.pc == Closing || c.pc == Finished ==> c.read == Some(c.wanted) || c.timeoutReached)
    && (c.pc == Asleep && c.timeoutReached ==> c.timer == Flagged)
    && (c.pc == Asleep && Lookup(Current(s), c.hash) == Some(c.wanted) ==> s.reader == Updated)
    && c.born <= |s.versions|
    && (c.done ==> c.pc == Finished)
  }

  ghost predicate Inv(s: State) {
    && s.versions != []
    && (s.reader != Receiving <==> s.mutex == Some(Reader))
    && (forall i | 0 <= i < |s.calls| :: CallOk(s, i))
    && (s.mutex.Some? && s.mutex.value.Waiter? ==> s.mutex.value.i < |s.calls|)
    && (s.mutex.Some? && s.mutex.value.Timer? ==> s.mutex.value.i < |s.calls|)
  }

  lemma CallStep(s: State, i: nat, s': State)
    requires Inv(s) && i < |s.calls| == |s'.calls| && s'.versions == s.versions && s'.reader == s.reader
    requires forall j | 0 <= j < |s.calls| && j != i :: s'.calls[j] == s.calls[j]
    requires s'.mutex == s.mutex
          || (s.mutex == None && (s'.mutex == Some(Waiter(i)) || s'.mutex == Some(Timer(i))))
          || (s'.mutex == None && (s.mutex == Some(Waiter(i)) || s.mutex == Some(Timer(i))))
    requires CallOk(s', i)
    ensures Inv(s')
  {
    forall j | 0 <= j < |s.calls| ensures CallOk(s', j) {
      assert CallOk(s, j);
    }
  }

  lemma WaiterKeeps(s: State, a: Action, s': State)
    requires Inv(s) && Next(s, a, s')
    requires a.WaiterLock? || a.WaiterDecide? || a.WaiterUnlock? || a.WaiterClose?
    ensures Inv(s')
  {
    assert CallOk(s, a.i);
    CallStep(s, a.i, s');
  }

  lemma TimerKeeps(s: State, i: nat, from: TimerPc, to: TimerPc, s': State)
    requires Inv(s) && TimerStep(s, i, from, to, s')
    ensures Inv(s')
  {
    assert CallOk(s, i);
    if from == Flagged {
      forall j | 0 <= j < |s.calls| ensures CallOk(s', j) {
        assert CallOk(s, j);
      }
    } else {
      CallStep(s, i, s');
    }
  }

  lemma ReaderKeeps(s: State, from: ReaderPc, next: map<Bytes32, InvoiceState>, s': State)
    requires Inv(s) && ReaderStep(s, from, next, s')
    ensures Inv(s')
  {
    forall j | 0 <= j < |s.calls| ensures CallOk(s', j) {
      assert CallOk(s, j);
    }
  }

  lemma StepKeepsInv(s: State, a: Action, s': State)
    requires Inv(s) && Next(s, a, s')
    ensures Inv(s')
  {
    match a
    case NewCall(_, _) =>
      forall j | 0 <= j < |s'.calls| ensures CallOk(s', j) {
        if j < |s.calls| { assert CallOk(s, j); }
      }
    case WaiterLock(_) => WaiterKeeps(s, a, s');
    case WaiterDecide(_) => WaiterKeeps(s, a, s');
    case WaiterUnlock(_) => WaiterKeeps(s, a, s');
    case WaiterClose(_) => WaiterKeeps(s, a, s');
    case TimerFire(i) => TimerKeeps(s, i, Selecting, TimerAtLock, s');
    case TimerLock(i) => TimerKeeps(s, i, TimerAtLock, TimerLocked, s');
    case TimerFlag(i) => TimerKeeps(s, i, TimerLocked, Flagged, s');
    case TimerBroadcast(i) => TimerKeeps(s, i, Flagged, TimerUnlocking, s');
    case TimerUnlock(i) => TimerKeeps(s, i, TimerUnlocking, TimerDone, s');
    case ReaderLock => ReaderKeeps(s, Receiving, map[], s');
    case ReaderUpdate(next) => ReaderKeeps(s, ReaderLocked, next, s');
    case ReaderBroadcast => ReaderKeeps(s, Updated, map[], s');
    case ReaderUnlock => ReaderKeeps(s, ReaderUnlocking, map[], s');
  }

  lemma {:induction false} InvAlongRun(ss: seq<State>, acts: seq<Action>, n: nat)
    requires Run(ss, acts) && n <= |acts|
    ensures Inv(ss[n])
  {
    if n > 0 {
      InvAlongRun(ss, acts, n - 1);
      StepKeepsInv(ss[n - 1], acts[n - 1], ss[n]);
    }
  }

  // ---------------------------------------------------------------- what it buys

  /** In every interleaving: a sleeping waiter that nobody is about to wake has nothing to wake up for, and
      its timeout thread is still to come, so it cannot sleep forever. */
  lemma NoLostWakeup(ss: seq<State>, acts: seq<Action>, n: nat, i: nat)
    requires Run(ss, acts) && n <= |acts| && i < |ss[n].calls| && ss[n].calls[i].pc == Asleep
    ensures var s, c := ss[n], ss[n].calls[i];
            && (s.reader != Updated && c.timer != Flagged ==>
                  && !c.timeoutReached
                  && s.versions != [] && Lookup(Current(s), c.hash) != Some(c.wanted))
            && (c.timer == Selecting || c.timer == TimerAtLock || c.timer == TimerLocked || c.timer == Flagged)
  {
    InvAlongRun(ss, acts, n);
    assert CallOk(ss[n], i);
  }

  /** The call returns when both goroutines are through. */
  predicate Returned(c: Call) {
    c.pc == Finished && c.timer == TimerDone
  }

  predicate ReturnsNil(c: Call) {
    Returned(c) && c.read == Some(c.wanted)
  }

  /** VerifyInvoiceStatus answers by what its last read under the mutex saw: the cache as it was at some
      version that was current during the call. */
  lemma AnswersFromLastRead(ss: seq<State>, acts: seq<Action>, n: nat, i: nat)
    requires Run(ss, acts) && n <= |acts| && i < |ss[n].calls| && Returned(ss[n].calls[i])
    ensures var s, c := ss[n], ss[n].calls[i];
            && c.readAt < |s.versions| && c.born <= c.readAt + 1
            && (ReturnsNil(c) <==> Lookup(s.versions[c.readAt], c.hash) == Some(c.wanted))
  {
    InvAlongRun(ss, acts, n);
    assert CallOk(ss[n], i);
  }

  // ---------------------------------------------------------------- every call can return

  /** The thread a step belongs to; a new call belongs to nobody yet. */
  function Actor(a: Action): Option<Thread> {
    match a
    case NewCall(_, _) => None
    case WaiterLock(i) => Some(Waiter(i))
    case WaiterDecide(i) => Some(Waiter(i))
    case WaiterUnlock(i) => Some(Waiter(i))
    case WaiterClose(i) => Some(Waiter(i))
    case TimerFire(i) => Some(Timer(i))
    case TimerLock(i) => Some(Timer(i))
    case TimerFlag(i) => Some(Timer(i))
    case TimerBroadcast(i) => Some(Timer(i))
    case TimerUnlock(i) => Some(Timer(i))
    case _ => Some(Reader)
  }

  function TimerRank(pc: TimerPc): nat {
    match pc
    case Selecting => 5
    case TimerAtLock => 4
    case TimerLocked => 3
    case Flagged => 2
    case TimerUnlocking => 1
    case TimerDone => 0
  }

  /** What the waiter still has to do once it has been told to give up. */
  function WaiterRank(c: Call): nat {
    if TimerRank(c.timer) >= 2 then 0
    else match c.pc
      case AtLock => 4
      case Woken => 4
      case Asleep => 4
      case Checking => 3
      case Leaving => 2
      case Closing => 1
      case Finished => 0
  }

  /** How many steps the owner of the mutex needs at most before it lets go. */
  function HoldRank(s: State): nat {
    match s.mutex
    case None => 0
    case Some(Reader) =>
      if s.reader == ReaderLocked then 3
      else if s.reader == Updated then 2
      else if s.reader == ReaderUnlocking then 1 else 0
    case Some(Waiter(i)) => if i < |s.calls| && s.calls[i].pc == Checking then 2 else 1
    case Some(Timer(i)) => if i < |s.calls| then TimerRank(s.calls[i].timer) else 0
  }

  /** The thread that holds the mutex can always take its next step, and comes closer to releasing it; next is
      what the reader is about to write, should it be the holder. */
  lemma HolderMoves(s: State, next: map<Bytes32, InvoiceState>) returns (a: Action, s': State)
    requires Inv(s) && s.mutex.Some?
    ensures a.ReaderUpdate? ==> a.next == next
    ensures Actor(a) == s.mutex && Next(s, a, s') && HoldRank(s') < HoldRank(s)
    ensures forall i | 0 <= i < |s.calls| :: Closer(s, s', i)
  {
    match s.mutex.value
    case Reader => a, s' := ReaderMoves(s, next);
    case Waiter(i) => a, s' := WaiterMoves(s, i);
    case Timer(i) => a, s' := TimerMoves(s, i);
  }

  /** What the owner's step does to a call: its timer and its waiter do not fall back. */
  ghost predicate Closer(s: State, s': State, i: nat)
    requires i < |s.calls|
  {
    && i < |s'.calls|
    && TimerRank(s'.calls[i].timer) <= TimerRank(s.calls[i].timer)
    && (TimerRank(s'.calls[i].timer) == TimerRank(s.calls[i].timer) ==>
          WaiterRank(s'.calls[i]) <= WaiterRank(s.calls[i]))
  }

  lemma ReaderMoves(s: State, next: map<Bytes32, InvoiceState>) returns (a: Action, s': State)
    requires Inv(s) && s.mutex == Some(Reader)
    ensures a.ReaderUpdate? ==> a.next == next
    ensures Actor(a) == s.mutex && Next(s, a, s') && HoldRank(s') < HoldRank(s)
    ensures forall i | 0 <= i < |s.calls| :: Closer(s, s', i)
  {
    if s.reader == ReaderLocked {
      a, s' := ReaderUpdate(next), s.(reader := Updated, versions := s.versions + [next]);
    } else if s.reader == Updated {
      a, s' := ReaderBroadcast, s.(reader := ReaderUnlocking, calls := WakeAll(s.calls));
    } else {
      a, s' := ReaderUnlock, s.(reader := Receiving, mutex := None);
    }
  }

  lemma WaiterMoves(s: State, i: nat) returns (a: Action, s': State)
    requires Inv(s) && s.mutex == Some(Waiter(i))
    ensures !a.ReaderUpdate?
    ensures Actor(a) == s.mutex && Next(s, a, s') && HoldRank(s') < HoldRank(s)
    ensures forall j | 0 <= j < |s.calls| :: Closer(s, s', j)
  {
    assert CallOk(s, i);
    var c := s.calls[i];
    if c.pc == Leaving {
      a, s' := WaiterUnlock(i), SetCall(s, i, c.(pc := Closing)).(mutex := None);
    } else if c.read != Some(c.wanted) && !c.timeoutReached {
      a, s' := WaiterDecide(i), SetCall(s, i, c.(pc := Asleep)).(mutex := None);
    } else {
      a, s' := WaiterDecide(i), SetCall(s, i, c.(pc := Leaving));
    }
  }

  lemma TimerMoves(s: State, i: nat) returns (a: Action, s': State)
    requires Inv(s) && s.mutex == Some(Timer(i))
    ensures !a.ReaderUpdate?
    ensures Actor(a) == s.mutex && Next(s, a, s') && HoldRank(s') < HoldRank(s)
    ensures forall j | 0 <= j < |s.calls| :: Closer(s, s', j)
  {
    assert CallOk(s, i);
    var c := s.calls[i];
    if c.timer == TimerLocked {
      a, s' := TimerFlag(i), SetCall(s, i, c.(timer := Flagged, timeoutReached := true));
    } else if c.timer == Flagged {
      var s1 := SetCall(s, i, c.(timer := TimerUnlocking));
      a, s' := TimerBroadcast(i), s1.(calls := WakeAll(s1.calls));
    } else {
      a, s' := TimerUnlock(i), SetCall(s, i, c.(timer := TimerDone)).(mutex := None);
    }
  }

  /** A step towards the return of call i: its timer advances, or its waiter does, or the owner of the mutex
      comes closer to releasing it. */
  ghost predicate Advances(s: State, s': State, i: nat)
    requires i < |s.calls|
  {
    && i < |s'.calls|
    && var t, t' := TimerRank(s.calls[i].timer), TimerRank(s'.calls[i].timer);
       var r, r' := WaiterRank(s.calls[i]), WaiterRank(s'.calls[i]);
       t' < t || (t' == t && (r' < r || (r' == r && HoldRank(s') < HoldRank(s))))
  }

  /** No deadlock: as long as a call has not returned, one of its own threads or the owner of the mutex can
      take a step that brings the call closer to its return. */
  lemma NeverStuck(s: State, i: nat, next: map<Bytes32, InvoiceState>) returns (a: Action, s': State)
    requires Inv(s) && i < |s.calls| && !Returned(s.calls[i])
    ensures Next(s, a, s') && Advances(s, s', i) && (a.ReaderUpdate? ==> a.next == next)
    ensures Actor(a) == Some(Waiter(i)) || Actor(a) == Some(Timer(i)) || (Actor(a).Some? && Actor(a) == s.mutex)
  {
    assert CallOk(s, i);
    var c := s.calls[i];
    if s.mutex.Some? {
      a, s' := HolderMoves(s, next);
      assert Closer(s, s', i);
    } else if c.timer == Selecting {
      a, s' := TimerFire(i), SetCall(s, i, c.(timer := TimerAtLock));
    } else if c.timer == TimerAtLock {
      a, s' := TimerLock(i), SetCall(s, i, c.(timer := TimerLocked)).(mutex := Some(Timer(i)));
    } else if c.pc == Closing {
      a, s' := WaiterClose(i), SetCall(s, i, c.(pc := Finished, done := true));
    } else {
      a, s' := WaiterLock(i), SetCall(s, i, c.(pc := Checking, read := Lookup(Current(s), c.hash),
                                               readAt := |s.versions| - 1)).(mutex := Some(Waiter(i)));
    }
  }

  /** The step belongs to call i or to the owner of the mutex, and if it is the reader's update it writes next. */
  ghost predicate Helps(s: State, a: Action, i: nat, next: map<Bytes32, InvoiceState>) {
    && (Actor(a) == Some(Waiter(i)) || Actor(a) == Some(Timer(i)) || (Actor(a).Some? && Actor(a) == s.mutex))
    && (a.ReaderUpdate? ==> a.next == next)
  }

  /** A continuation from s in which only such steps are taken. */
  ghost predicate Continues(ss: seq<State>, acts: seq<Action>, s: State, i: nat, next: map<Bytes32, InvoiceState>) {
    && |ss| == |acts| + 1 && ss[0] == s
    && forall n | 0 <= n < |acts| :: Next(ss[n], acts[n], ss[n + 1]) && Helps(ss[n], acts[n], i, next)
  }

  lemma {:induction false} CallCanReturn(s: State, i: nat, next: map<Bytes32, InvoiceState>)
    returns (ss: seq<State>, acts: seq<Action>)
    requires Inv(s) && i < |s.calls|
    ensures Continues(ss, acts, s, i, next) && i < |ss[|acts|].calls| && Returned(ss[|acts|].calls[i])
    decreases TimerRank(s.calls[i].timer), WaiterRank(s.calls[i]), HoldRank(s)
  {
    if Returned(s.calls[i]) {
      ss, acts := [s], [];
    } else {
      var a, s1 := NeverStuck(s, i, next);
      StepKeepsInv(s, a, s1);
      var rest, more := CallCanReturn(s1, i, next);
      ss, acts := [s] + rest, [a] + more;
      Prepend(s, a, rest, more, s1, i, next);
    }
  }

  lemma Prepend(s: State, a: Action, ss: seq<State>, acts: seq<Action>, s1: State, i: nat, next: map<Bytes32,
                InvoiceState>)
    requires Continues(ss, acts, s1, i, next) && Next(s, a, s1) && Helps(s, a, i, next)
    ensures Continues([s] + ss, [a] + acts, s, i, next)
  {
    var ts, bs := [s] + ss, [a] + acts;
    forall n | 0 <= n < |bs| ensures Next(ts[n], bs[n], ts[n + 1]) && Helps(ts[n], bs[n], i, next) {
      if n > 0 {
        assert bs[n] == acts[n - 1] && ts[n] == ss[n - 1] && ts[n + 1] == ss[n];
      }
    }
  }

  /** From every state of every run, every call can return by steps of its own two threads and of whoever holds
      the mutex: no new update, no other call and no new caller is needed, and it makes no difference what an
      update already under way writes. */
  lemma EveryCallCanReturn(ss: seq<State>, acts: seq<Action>, n: nat, i: nat, next: map<Bytes32, InvoiceState>)
    returns (more: seq<State>, steps: seq<Action>)
    requires Run(ss, acts) && n <= |acts| && i < |ss[n].calls|
    ensures Continues(more, steps, ss[n], i, next) && i < |more[|steps|].calls| && Returned(more[|steps|].calls[i])
  {
    InvAlongRun(ss, acts, n);
    more, steps := CallCanReturn(ss[n], i, next);
  }
}
