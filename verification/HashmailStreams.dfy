/** Who may use a hashmail stream, and when it goes stale: the read and write tokens in their one-slot
    channels, the occupancy flags, and the stale timer. Taking and returning a token are two steps each,
    as in the code: the channel operation and the status update. */
module HashmailStreams {
  import opened Words

  // ---------------------------------------------------------------- streamStatus

  datatype Status = Status(disabled: bool, armed: bool, readOccupied: bool, writeOccupied: bool)

  function NewStatus(disabled: bool): Status {
    Status(disabled, !disabled, false, false)
  }

  function SetOccupied(s: Status, read: bool, occupied: bool): Status {
    if read then s.(readOccupied := occupied) else s.(writeOccupied := occupied)
  }

  function Taken(s: Status, read: bool): Status {
    if s.disabled then s else SetOccupied(s, read, true).(armed := false)
  }

  function ReturnedTo(s: Status, read: bool): Status {
    if s.disabled then s
    else
      var s' := SetOccupied(s, read, false);
      if !s'.readOccupied && !s'.writeOccupied then s'.(armed := true) else s'
  }

  function Stopped(s: Status): Status {
    if s.disabled then s else s.(armed := false)
  }

  /** A timer runs exactly while nothing is occupied, unless expiry is disabled. */
  predicate InStep(s: Status) {
    if s.disabled then !s.armed && !s.readOccupied && !s.writeOccupied
    else s.armed <==> !s.readOccupied && !s.writeOccupied
  }

  /** streamStatus, with its timer reduced to whether it is armed. */
  class StreamStatus {
    const disabled: bool
    var armed: bool
    var readStreamOccupied: bool
    var writeStreamOccupied: bool

    ghost function Value(): Status
      reads this
    {
      Status(disabled, armed, readStreamOccupied, writeStreamOccupied)
    }

    constructor (staleTimeout: int)
      ensures Value() == NewStatus(staleTimeout < 0) && InStep(Value())
    {
      disabled := staleTimeout < 0;
      armed := staleTimeout >= 0;
      readStreamOccupied, writeStreamOccupied := false, false;
    }

    method Stop()
      modifies this
      ensures Value() == Stopped(old(Value()))
    {
      if disabled {
        return;
      }
      armed := false;
    }

    method StreamTaken(read: bool)
      modifies this
      ensures Value() == Taken(old(Value()), read)
      ensures old(InStep(Value())) ==> InStep(Value())
    {
      if disabled {
        return;
      }
      if read {
        readStreamOccupied := true;
      } else {
        writeStreamOccupied := true;
      }
      armed := false;
    }

    method StreamReturned(read: bool)
      modifies this
      ensures Value() == ReturnedTo(old(Value()), read)
      ensures old(InStep(Value())) ==> InStep(Value())
    {
      if disabled {
        return;
      }
      if read {
        readStreamOccupied := false;
      } else {
        writeStreamOccupied := false;
      }
      if !readStreamOccupied && !writeStreamOccupied {
        armed := true;
      }
    }
  }

  // ---------------------------------------------------------------- the server

  /** One side of a stream: tokens in the channel, callers that have received one but not yet reported it,
      holders, and callers that have put one back but not yet reported it. */
  datatype Side = Side(inChannel: nat, taking: nat, held: nat, returning: nat)

  datatype Stream = Stream(id: Bytes, read: Side, write: Side, status: Status, fired: nat, torn: bool)

  datatype Server = Server(disabled: bool, streams: map<Bytes, nat>, objects: seq<Stream>)

  datatype Action =
    | InitStream(id: Bytes)
    | TakeToken(id: Bytes, read: bool) | ReportTaken(o: nat, read: bool)
    | PutToken(o: nat, read: bool) | ReportReturned(o: nat, read: bool)
    | TimerFires(o: nat) | TearDownStale(o: nat) | TearDown(id: Bytes)

  function SideOf(s: Stream, read: bool): Side {
    if read then s.read else s.write
  }

  function WithSide(s: Stream, read: bool, side: Side): Stream {
    if read then s.(read := side) else s.(write := side)
  }

  function SetObject(w: Server, o: nat, s: Stream): Server
    requires o < |w.objects|
  {
    w.(objects := w.objects[o := s])
  }

  function NewStream(id: Bytes, disabled: bool): Stream {
    Stream(id, Side(1, 0, 0, 0), Side(1, 0, 0, 0), NewStatus(disabled), 0, false)
  }

  /** tearDown and delete whatever stream the id names now, if any. */
  function Torn(w: Server, id: Bytes): Server {
    if id in w.streams && w.streams[id] < |w.objects| then
      var o := w.streams[id];
      SetObject(w, o, w.objects[o].(torn := true, status := Stopped(w.objects[o].status))).(streams := w.streams - {id})
    else w
  }

  function TakeAt(s: Stream, read: bool): Stream
    requires SideOf(s, read).inChannel > 0
  {
    var side := SideOf(s, read);
    WithSide(s, read, side.(inChannel := side.inChannel - 1, taking := side.taking + 1))
  }

  function ReportTakenAt(s: Stream, read: bool): Stream
    requires SideOf(s, read).taking > 0
  {
    var side := SideOf(s, read);
    WithSide(s, read, side.(taking := side.taking - 1, held := side.held + 1)).(status := Taken(s.status, read))
  }

  /** A full channel would block. */
  function PutAt(s: Stream, read: bool): Stream
    requires SideOf(s, read).held > 0 && SideOf(s, read).inChannel == 0
  {
    var side := SideOf(s, read);
    WithSide(s, read, side.(held := side.held - 1, inChannel := 1, returning := side.returning + 1))
  }

  function ReportReturnedAt(s: Stream, read: bool): Stream
    requires SideOf(s, read).returning > 0
  {
    var side := SideOf(s, read);
    WithSide(s, read, side.(returning := side.returning - 1)).(status := ReturnedTo(s.status, read))
  }

  function FireAt(s: Stream): Stream {
    s.(status := s.status.(armed := false), fired := s.fired + 1)
  }

  ghost predicate Next(w: Server, a: Action, w': Server) {
    match a
    case InitStream(id) =>
      w' == if id in w.streams then w
            else w.(objects := w.objects + [NewStream(id, w.disabled)], streams := w.streams[id := |w.objects|])
    case TakeToken(id, read) =>
      // an empty channel is "stream occupied"
      && id in w.streams && w.streams[id] < |w.objects|
      && var s := w.objects[w.streams[id]];
         w' == if SideOf(s, read).inChannel == 0 then w else SetObject(w, w.streams[id], TakeAt(s, read))
    case ReportTaken(o, read) =>
      && o < |w.objects| && SideOf(w.objects[o], read).taking > 0
      && w' == SetObject(w, o, ReportTakenAt(w.objects[o], read))
    case PutToken(o, read) =>
      && o < |w.objects| && SideOf(w.objects[o], read).held > 0 && SideOf(w.objects[o], read).inChannel == 0
      && w' == SetObject(w, o, PutAt(w.objects[o], read))
    case ReportReturned(o, read) =>
      && o < |w.objects| && SideOf(w.objects[o], read).returning > 0
      && w' == SetObject(w, o, ReportReturnedAt(w.objects[o], read))
    case TimerFires(o) =>
      o < |w.objects| && w.objects[o].status.armed && w' == SetObject(w, o, FireAt(w.objects[o]))
    // the callback tears down by id
    case TearDownStale(o) =>
      && o < |w.objects| && w.objects[o].fired > 0
      && w' == Torn(SetObject(w, o, w.objects[o].(fired := w.objects[o].fired - 1)), w.objects[o].id)
    case TearDown(id) => w' == Torn(w, id)
  }

  ghost predicate Init(w: Server) {
    w.streams == map[] && w.objects == []
  }

  ghost predicate Run(ws: seq<Server>, acts: seq<Action>) {
    && |ws| == |acts| + 1 && Init(ws[0])
    && forall i | 0 <= i < |acts| :: Next(ws[i], acts[i], ws[i + 1])
  }

  /** The three races the code loses: a token is taken from a stream whose timer has fired; a timer fires while
      a taking is not yet reported; a return is reported while the side is held again. */
  ghost predicate Gentle(w: Server, a: Action) {
    match a
    case TakeToken(id, read) =>
      id in w.streams && w.streams[id] < |w.objects| && SideOf(w.objects[w.streams[id]], read).inChannel > 0 ==>
        w.objects[w.streams[id]].fired == 0
    case TimerFires(o) =>
      o < |w.objects| && !w.objects[o].torn ==> w.objects[o].read.taking == 0 && w.objects[o].write.taking == 0
    case ReportReturned(o, read) =>
      o < |w.objects| && !w.objects[o].torn && !w.objects[o].status.disabled ==> SideOf(w.objects[o], read).held == 0
    case _ => true
  }

  // ---------------------------------------------------------------- exclusivity

  predicate OneToken(side: Side) {
    side.inChannel + side.taking + side.held == 1
  }

  predicate ObjectOk(s: Stream) {
    OneToken(s.read) && OneToken(s.write)
  }

  /** Every object has one token a side; an object is live exactly while its id names it. */
  ghost predicate Exclusive(w: Server) {
    && (forall o | 0 <= o < |w.objects| :: ObjectOk(w.objects[o]))
    && (forall o | 0 <= o < |w.objects| ::
          !w.objects[o].torn <==> w.objects[o].id in w.streams && w.streams[w.objects[o].id] == o)
    && (forall id | id in w.streams :: w.streams[id] < |w.objects| && w.objects[w.streams[id]].id == id)
  }

  lemma ObjectSet(w: Server, o: nat, s: Stream)
    requires Exclusive(w) && o < |w.objects| && ObjectOk(s)
    requires s.id == w.objects[o].id && s.torn == w.objects[o].torn
    ensures Exclusive(SetObject(w, o, s))
  {
  }

  lemma TornKeeps(w: Server, id: Bytes)
    requires Exclusive(w)
    ensures Exclusive(Torn(w, id))
  {
    if id in w.streams {
      var w', k := Torn(w, id), w.streams[id];
      forall o | 0 <= o < |w.objects|
        ensures !w'.objects[o].torn <==> w'.objects[o].id in w'.streams && w'.streams[w'.objects[o].id] == o
        ensures ObjectOk(w'.objects[o])
      {
        assert ObjectOk(w.objects[o]);
      }
    }
  }

  lemma InitKeeps(w: Server, id: Bytes, w': Server)
    requires Exclusive(w) && Next(w, InitStream(id), w')
    ensures Exclusive(w')
  {
    if id !in w.streams {
      forall o | 0 <= o < |w'.objects|
        ensures !w'.objects[o].torn <==> w'.objects[o].id in w'.streams && w'.streams[w'.objects[o].id] == o
        ensures ObjectOk(w'.objects[o])
      {
        if o < |w.objects| { assert ObjectOk(w.objects[o]); }
      }
    }
  }

  /** No operation on a stream makes or loses a token. */
  lemma ObjectTokens(s: Stream, read: bool)
    requires ObjectOk(s)
    ensures SideOf(s, read).inChannel > 0 ==> ObjectOk(TakeAt(s, read))
    ensures SideOf(s, read).taking > 0 ==> ObjectOk(ReportTakenAt(s, read))
    ensures SideOf(s, read).held > 0 ==> ObjectOk(PutAt(s, read))
    ensures SideOf(s, read).returning > 0 ==> ObjectOk(ReportReturnedAt(s, read))
    ensures ObjectOk(FireAt(s))
  {
  }

  lemma TakeKeeps(w: Server, id: Bytes, read: bool, w': Server)
    requires Exclusive(w) && Next(w, TakeToken(id, read), w')
    ensures Exclusive(w')
  {
    var o := w.streams[id];
    var s := w.objects[o];
    if SideOf(s, read).inChannel > 0 {
      ObjectTokens(s, read);
      ObjectSet(w, o, TakeAt(s, read));
    }
  }

  /** The steps that only touch one object. */
  lemma ObjectStepKeeps(w: Server, a: Action, o: nat, w': Server)
    requires Exclusive(w) && Next(w, a, w')
    requires a.ReportTaken? || a.PutToken? || a.ReportReturned? || a.TimerFires?
    requires o == a.o
    ensures Exclusive(w')
  {
    var s := w.objects[o];
    ObjectTokens(s, if a.TimerFires? then true else a.read);
    var s' := match a
      case ReportTaken(_, read) => ReportTakenAt(s, read)
      case PutToken(_, read) => PutAt(s, read)
      case ReportReturned(_, read) => ReportReturnedAt(s, read)
      case TimerFires(_) => FireAt(s);
    ObjectSet(w, o, s');
  }

  lemma StaleKeeps(w: Server, o: nat, w': Server)
    requires Exclusive(w) && Next(w, TearDownStale(o), w')
    ensures Exclusive(w')
  {
    var s := w.objects[o].(fired := w.objects[o].fired - 1);
    assert ObjectOk(w.objects[o]);
    ObjectSet(w, o, s);
    TornKeeps(SetObject(w, o, s), s.id);
  }

  lemma ExclusiveStep(w: Server, a: Action, w': Server)
    requires Exclusive(w) && Next(w, a, w')
    ensures Exclusive(w')
  {
    match a
    case InitStream(id) => InitKeeps(w, id, w');
    case TakeToken(id, read) => TakeKeeps(w, id, read, w');
    case ReportTaken(o, _) => ObjectStepKeeps(w, a, o, w');
    case PutToken(o, _) => ObjectStepKeeps(w, a, o, w');
    case ReportReturned(o, _) => ObjectStepKeeps(w, a, o, w');
    case TimerFires(o) => ObjectStepKeeps(w, a, o, w');
    case TearDownStale(o) => StaleKeeps(w, o, w');
    case TearDown(id) => TornKeeps(w, id);
  }

  lemma {:induction false} StreamExclusivity(ws: seq<Server>, acts: seq<Action>, n: nat)
    requires Run(ws, acts) && n <= |acts|
    ensures Exclusive(ws[n])
    ensures forall o | 0 <= o < |ws[n].objects| :: ws[n].objects[o].read.held <= 1 && ws[n].objects[o].write.held <= 1
  {
    if n > 0 {
      StreamExclusivity(ws, acts, n - 1);
      ExclusiveStep(ws[n - 1], acts[n - 1], ws[n]);
    }
    assert forall o | 0 <= o < |ws[n].objects| :: ObjectOk(ws[n].objects[o]);
  }

  // ---------------------------------------------------------------- the stale timer

  /** A held side is flagged, and a flagged side is held or has a return to report. */
  predicate SideTracked(side: Side, occupied: bool) {
    && (side.held == 1 ==> occupied)
    && (occupied ==> side.held == 1 || side.returning > 0)
  }

  /** On a live stream the timer runs exactly while nothing is flagged, until it fires, and when it has fired
      both tokens are in their channels. */
  predicate Tracked(s: Stream) {
    && (s.status.disabled ==> !s.status.armed && s.fired == 0)
    && (!s.torn && !s.status.disabled ==>
          && SideTracked(s.read, s.status.readOccupied) && SideTracked(s.write, s.status.writeOccupied)
          && (s.status.armed ==> !s.status.readOccupied && !s.status.writeOccupied)
          && (s.fired == 0 && !s.status.readOccupied && !s.status.writeOccupied ==> s.status.armed)
          && (s.fired > 0 ==> s.read.inChannel == 1 && s.write.inChannel == 1))
  }

  ghost predicate AllTracked(w: Server) {
    forall o | 0 <= o < |w.objects| :: Tracked(w.objects[o])
  }

  /** What the operations on one stream do to its flags and timer. */
  lemma ObjectTracked(s: Stream, read: bool)
    requires ObjectOk(s) && Tracked(s)
    ensures SideOf(s, read).inChannel > 0 && s.fired == 0 ==> Tracked(TakeAt(s, read))
    ensures SideOf(s, read).taking > 0 ==> Tracked(ReportTakenAt(s, read))
    ensures SideOf(s, read).held > 0 ==> Tracked(PutAt(s, read))
    ensures SideOf(s, read).returning > 0 && (s.torn || s.status.disabled || SideOf(s, read).held == 0) ==>
              Tracked(ReportReturnedAt(s, read))
    ensures s.status.armed && (s.torn || (s.read.taking == 0 && s.write.taking == 0)) ==> Tracked(FireAt(s))
    ensures Tracked(s.(torn := true, status := Stopped(s.status)))
  {
  }

  lemma TrackedSet(w: Server, o: nat, s: Stream)
    requires AllTracked(w) && o < |w.objects| && Tracked(s)
    ensures AllTracked(SetObject(w, o, s))
  {
  }

  lemma TornTracked(w: Server, id: Bytes)
    requires Exclusive(w) && AllTracked(w)
    ensures AllTracked(Torn(w, id))
  {
    if id in w.streams {
      var o := w.streams[id];
      ObjectTracked(w.objects[o], true);
      TrackedSet(w, o, w.objects[o].(torn := true, status := Stopped(w.objects[o].status)));
    }
  }

  /** The stale callback of a live stream tears down that very stream. */
  lemma StaleTracked(w: Server, o: nat, w': Server)
    requires Exclusive(w) && AllTracked(w) && Next(w, TearDownStale(o), w')
    ensures AllTracked(w')
  {
    var s := w.objects[o];
    assert Tracked(s) && ObjectOk(s);
    if s.torn {
      var s1 := s.(fired := s.fired - 1);
      ObjectSet(w, o, s1);
      TrackedSet(w, o, s1);
      TornTracked(SetObject(w, o, s1), s.id);
    } else {
      var gone := s.(fired := s.fired - 1, torn := true, status := Stopped(s.status));
      TrackedSet(w, o, gone);
      assert w'.objects == SetObject(w, o, gone).objects;
    }
  }

  lemma TrackedStep(w: Server, a: Action, w': Server)
    requires Exclusive(w) && AllTracked(w) && Next(w, a, w') && Gentle(w, a)
    ensures AllTracked(w')
  {
    match a
    case InitStream(id) =>
      forall o | 0 <= o < |w'.objects| ensures Tracked(w'.objects[o]) {
        if o < |w.objects| { assert Tracked(w.objects[o]); }
      }
    case TakeToken(id, read) =>
      var o := w.streams[id];
      ObjectTracked(w.objects[o], read);
      if SideOf(w.objects[o], read).inChannel > 0 { TrackedSet(w, o, TakeAt(w.objects[o], read)); }
    case ReportTaken(o, read) =>
      ObjectTracked(w.objects[o], read);
      TrackedSet(w, o, ReportTakenAt(w.objects[o], read));
    case PutToken(o, read) =>
      ObjectTracked(w.objects[o], read);
      TrackedSet(w, o, PutAt(w.objects[o], read));
    case ReportReturned(o, read) =>
      ObjectTracked(w.objects[o], read);
      TrackedSet(w, o, ReportReturnedAt(w.objects[o], read));
    case TimerFires(o) =>
      ObjectTracked(w.objects[o], true);
      TrackedSet(w, o, FireAt(w.objects[o]));
    case TearDownStale(o) => StaleTracked(w, o, w');
    case TearDown(id) => TornTracked(w, id);
  }

  lemma {:induction false} TrackedAlongRun(ws: seq<Server>, acts: seq<Action>, n: nat)
    requires Run(ws, acts) && n <= |acts|
    requires forall i | 0 <= i < n :: Gentle(ws[i], acts[i])
    ensures AllTracked(ws[n])
  {
    if n > 0 {
      StreamExclusivity(ws, acts, n - 1);
      TrackedAlongRun(ws, acts, n - 1);
      TrackedStep(ws[n - 1], acts[n - 1], ws[n]);
    }
  }

  predicate Quiet(side: Side) {
    side.taking == 0 && side.returning == 0
  }

  /** In every run of gentle steps, on a live stream with expiry enabled and no operation half done: the stale
      timer is armed, or has fired and its callback is still to run, exactly when both tokens are in their
      channels. */
  lemma StaleTimerIff(ws: seq<Server>, acts: seq<Action>, n: nat, o: nat)
    requires Run(ws, acts) && n <= |acts| && o < |ws[n].objects|
    requires forall i | 0 <= i < n :: Gentle(ws[i], acts[i])
    requires var s := ws[n].objects[o]; !s.torn && !s.status.disabled && Quiet(s.read) && Quiet(s.write)
    ensures var s := ws[n].objects[o];
            s.status.armed || s.fired > 0 <==> s.read.inChannel == 1 && s.write.inChannel == 1
  {
    StreamExclusivity(ws, acts, n);
    TrackedAlongRun(ws, acts, n);
    assert Tracked(ws[n].objects[o]) && ObjectOk(ws[n].objects[o]);
  }

  /** A live stream that somebody holds while its timer runs or has fired. */
  predicate Endangered(s: Stream) {
    !s.torn && (s.status.armed || s.fired > 0) && (s.read.held > 0 || s.write.held > 0)
  }

  /** Gentle steps never endanger a stream. */
  lemma NeverEndangered(ws: seq<Server>, acts: seq<Action>, n: nat, o: nat)
    requires Run(ws, acts) && n <= |acts| && o < |ws[n].objects|
    requires forall i | 0 <= i < n :: Gentle(ws[i], acts[i])
    ensures !Endangered(ws[n].objects[o])
  {
    StreamExclusivity(ws, acts, n);
    TrackedAlongRun(ws, acts, n);
    assert Tracked(ws[n].objects[o]) && ObjectOk(ws[n].objects[o]);
  }

  /** So a stale callback that finds its own stream finds it unused. */
  lemma CallbackFindsItUnused(ws: seq<Server>, acts: seq<Action>, n: nat)
    requires Run(ws, acts) && n < |acts| && acts[n].TearDownStale?
    requires forall i | 0 <= i < n :: Gentle(ws[i], acts[i])
    ensures acts[n].o < |ws[n].objects|
    ensures var s := ws[n].objects[acts[n].o]; !s.torn ==> s.read.held == 0 && s.write.held == 0
  {
    assert Next(ws[n], acts[n], ws[n + 1]);
    NeverEndangered(ws, acts, n, acts[n].o);
  }

  // ---------------------------------------------------------------- each race is lost

  /** Further steps from a server. */
  ghost predicate Leads(ws: seq<Server>, acts: seq<Action>, w: Server) {
    && |ws| == |acts| + 1 && ws[0] == w
    && forall i | 0 <= i < |acts| :: Next(ws[i], acts[i], ws[i + 1])
  }

  lemma TakenWhenFired(w: Server, id: Bytes, read: bool, w': Server)
    returns (o: nat, ws: seq<Server>, acts: seq<Action>)
    requires Exclusive(w) && Next(w, TakeToken(id, read), w') && !Gentle(w, TakeToken(id, read))
    ensures Leads(ws, acts, w') && |acts| <= 2 && o < |ws[|acts|].objects| && Endangered(ws[|acts|].objects[o])
  {
    o := w.streams[id];
    var s' := w'.objects[o];
    var w2 := SetObject(w', o, ReportTakenAt(s', read));
    ws, acts := [w', w2], [ReportTaken(o, read)];
  }

  lemma FiredWhenTaking(w: Server, o: nat, w': Server) returns (ws: seq<Server>, acts: seq<Action>)
    requires Next(w, TimerFires(o), w') && !Gentle(w, TimerFires(o))
    ensures Leads(ws, acts, w') && |acts| <= 2 && o < |ws[|acts|].objects| && Endangered(ws[|acts|].objects[o])
  {
    var s' := w'.objects[o];
    var read := s'.read.taking > 0;
    var w2 := SetObject(w', o, ReportTakenAt(s', read));
    ws, acts := [w', w2], [ReportTaken(o, read)];
  }

  /** A late return clears the flag of a side that is held. Unless that arms the timer at once, the other side
      is still flagged, and its return does. */
  lemma ReturnedWhenHeld(w: Server, o: nat, read: bool, w': Server) returns (ws: seq<Server>, acts: seq<Action>)
    requires Exclusive(w) && o < |w.objects| && Tracked(w.objects[o])
    requires Next(w, ReportReturned(o, read), w') && !Gentle(w, ReportReturned(o, read))
    ensures Leads(ws, acts, w') && |acts| <= 2 && o < |ws[|acts|].objects| && Endangered(ws[|acts|].objects[o])
  {
    assert ObjectOk(w.objects[o]);
    var s' := w'.objects[o];
    if s'.status.armed {
      ws, acts := [w'], [];
    } else if SideOf(s', !read).returning > 0 {
      ws, acts := [w', SetObject(w', o, ReportReturnedAt(s', !read))], [ReportReturned(o, !read)];
    } else {
      var s2 := PutAt(s', !read);
      var w2 := SetObject(w', o, s2);
      var w3 := SetObject(w2, o, ReportReturnedAt(s2, !read));
      assert Next(w', PutToken(o, !read), w2) && Next(w2, ReportReturned(o, !read), w3);
      ws, acts := [w', w2, w3], [PutToken(o, !read), ReportReturned(o, !read)];
    }
  }

  /** And gentleness is what it takes: after any gentle run, a step that is not gentle leads within two more
      steps to an endangered stream. */
  lemma UngentleEndangers(ws: seq<Server>, acts: seq<Action>, n: nat)
    returns (o: nat, vs: seq<Server>, bs: seq<Action>)
    requires Run(ws, acts) && n < |acts| && !Gentle(ws[n], acts[n])
    requires forall i | 0 <= i < n :: Gentle(ws[i], acts[i])
    ensures Leads(vs, bs, ws[n + 1]) && |bs| <= 2 && o < |vs[|bs|].objects| && Endangered(vs[|bs|].objects[o])
  {
    StreamExclusivity(ws, acts, n);
    TrackedAlongRun(ws, acts, n);
    match acts[n]
    case TakeToken(id, read) => o, vs, bs := TakenWhenFired(ws[n], id, read, ws[n + 1]);
    case TimerFires(k) =>
      o := k;
      vs, bs := FiredWhenTaking(ws[n], k, ws[n + 1]);
    case ReportReturned(k, read) =>
      o := k;
      vs, bs := ReturnedWhenHeld(ws[n], k, read, ws[n + 1]);
  }

  /** The callback of an endangered stream whose timer has fired takes the stream away from its holder. */
  lemma FiredTakesAway(w: Server, o: nat) returns (w': Server)
    requires Exclusive(w) && o < |w.objects| && Endangered(w.objects[o]) && w.objects[o].fired > 0
    ensures Next(w, TearDownStale(o), w') && w'.objects[o].torn
    ensures w'.objects[o].read == w.objects[o].read && w'.objects[o].write == w.objects[o].write
  {
    w' := Torn(SetObject(w, o, w.objects[o].(fired := w.objects[o].fired - 1)), w.objects[o].id);
  }

  /** The shortest such run: the timer fires, a reader takes the stream before the callback gets the lock, and
      the callback removes it under the reader. */
  lemma TornUnderItsReader(id: Bytes) returns (ws: seq<Server>, acts: seq<Action>)
    ensures Run(ws, acts) && |acts| == 5 && acts[4] == TearDownStale(0)
    ensures |ws[4].objects| == 1 && !ws[4].objects[0].torn && ws[4].objects[0].read.held == 1
    ensures |ws[5].objects| == 1 && ws[5].objects[0].torn && ws[5].objects[0].read.held == 1
    ensures forall i | 0 <= i < 5 :: Tidy(ws[i], acts[i])
  {
    var fired := FireAt(NewStream(id, false));
    var taking := fired.(read := Side(0, 1, 0, 0));
    var held := fired.(read := Side(0, 0, 1, 0), status := Taken(fired.status, true));
    var w0 := Server(false, map[], []);
    var w1, w2 := Named(id, 0, [NewStream(id, false)]), Named(id, 0, [fired]);
    var w3, w4 := Named(id, 0, [taking]), Named(id, 0, [held]);
    var w5 := Server(false, map[], [held.(fired := 0, torn := true)]);
    ws := [w0, w1, w2, w3, w4, w5];
    acts := [InitStream(id), TimerFires(0), TakeToken(id, true), ReportTaken(0, true), TearDownStale(0)];
    assert Next(w0, acts[0], w1) && Next(w1, acts[1], w2) && Next(w2, acts[2], w3);
    assert Next(w3, acts[3], w4) && Next(w4, acts[4], w5);
  }

  /** And one for a late return. A reader puts its token back; before it reports this, another reader
      takes the token and reports that; then the first report lands. The stream is in use, yet its timer is
      armed. */
  lemma DisturbedReturnArmsTimer(id: Bytes) returns (ws: seq<Server>, acts: seq<Action>)
    ensures Run(ws, acts) && |acts| == 7
    ensures var s := ws[7].objects;
            |s| == 1 && s[0].read.held == 1 && Quiet(s[0].read) && Quiet(s[0].write) && !s[0].torn && s[0].status.armed
  {
    var w0 := Server(false, map[], []);
    var free := NewStream(id, false);
    var held := free.(read := Side(0, 0, 1, 0), status := Taken(free.status, true));
    var names := map[id := 0];
    var w1 := Server(false, names, [free]);
    var w2 := Server(false, names, [free.(read := Side(0, 1, 0, 0))]);
    var w3 := Server(false, names, [held]);
    var w4 := Server(false, names, [held.(read := Side(1, 0, 0, 1))]);
    var w5 := Server(false, names, [held.(read := Side(0, 1, 0, 1))]);
    var w6 := Server(false, names, [held.(read := Side(0, 0, 1, 1))]);
    var w7 := Server(false, names, [held.(status := ReturnedTo(held.status, true))]);
    ws := [w0, w1, w2, w3, w4, w5, w6, w7];
    acts := [InitStream(id), TakeToken(id, true), ReportTaken(0, true), PutToken(0, true), TakeToken(id, true),
             ReportTaken(0, true), ReportReturned(0, true)];
    assert Next(w0, acts[0], w1) && Next(w1, acts[1], w2) && Next(w2, acts[2], w3) && Next(w3, acts[3], w4);
    assert Next(w4, acts[4], w5) && Next(w5, acts[5], w6) && Next(w6, acts[6], w7);
  }

  // ---------------------------------------------------------------- stale callbacks

  /** The stale callback of o takes away a stream other than o. */
  ghost predicate HitsAnother(w: Server, o: nat, w': Server) {
    exists k :: 0 <= k < |w.objects| && k < |w'.objects| && k != o && !w.objects[k].torn && w'.objects[k].torn
  }

  /** It does so exactly when o itself is gone and its id names another stream by now. */
  lemma StaleHitsAnotherIff(w: Server, o: nat, w': Server)
    requires Exclusive(w) && Next(w, TearDownStale(o), w')
    ensures HitsAnother(w, o, w') <==> w.objects[o].torn && w.objects[o].id in w.streams
  {
    var id := w.objects[o].id;
    if w.objects[o].torn && id in w.streams {
      var k := w.streams[id];
      assert k != o && !w.objects[k].torn && w'.objects[k].torn;
    }
  }

  /** A removed stream has no callback left that could still run, and a disabled one never has any. */
  predicate CleanObject(s: Stream) {
    && (s.torn ==> s.fired == 0 && !s.status.armed)
    && (s.status.disabled ==> s.fired == 0 && !s.status.armed)
  }

  ghost predicate Clean(w: Server) {
    forall o | 0 <= o < |w.objects| :: CleanObject(w.objects[o])
  }

  /** A stream is removed only when no callback of it but the removing one has fired, and nobody frees a
      stream that has been removed. */
  ghost predicate Tidy(w: Server, a: Action) {
    match a
    case TearDown(id) => id in w.streams && w.streams[id] < |w.objects| ==> w.objects[w.streams[id]].fired == 0
    case TearDownStale(o) => o < |w.objects| ==> w.objects[o].fired <= 1
    case ReportReturned(o, read) =>
      o < |w.objects| && w.objects[o].torn ==> !ReturnedTo(w.objects[o].status, read).armed
    case _ => true
  }

  lemma CleanSet(w: Server, o: nat, s: Stream)
    requires Clean(w) && o < |w.objects| && CleanObject(s)
    ensures Clean(SetObject(w, o, s))
  {
  }

  lemma CleanTorn(w: Server, id: Bytes)
    requires Exclusive(w) && Clean(w)
    requires id in w.streams && w.streams[id] < |w.objects| ==> w.objects[w.streams[id]].fired == 0
    ensures Clean(Torn(w, id))
  {
    if id in w.streams {
      var o := w.streams[id];
      assert CleanObject(w.objects[o]);
      CleanSet(w, o, w.objects[o].(torn := true, status := Stopped(w.objects[o].status)));
    }
  }

  /** A callback that runs on a live stream removes that very stream. */
  lemma CleanStale(w: Server, o: nat, w': Server)
    requires Exclusive(w) && Clean(w) && Next(w, TearDownStale(o), w') && Tidy(w, TearDownStale(o))
    ensures Clean(w')
  {
    var s := w.objects[o];
    assert CleanObject(s) && ObjectOk(s);
    var s1 := s.(fired := 0);
    ObjectSet(w, o, s1);
    CleanSet(w, o, s1);
    CleanTorn(SetObject(w, o, s1), s.id);
  }

  lemma CleanObjects(s: Stream, read: bool)
    requires CleanObject(s)
    ensures SideOf(s, read).inChannel > 0 ==> CleanObject(TakeAt(s, read))
    ensures SideOf(s, read).taking > 0 ==> CleanObject(ReportTakenAt(s, read))
    ensures SideOf(s, read).held > 0 && SideOf(s, read).inChannel == 0 ==> CleanObject(PutAt(s, read))
    ensures SideOf(s, read).returning > 0 && (s.torn ==> !ReturnedTo(s.status, read).armed) ==>
              CleanObject(ReportReturnedAt(s, read))
    ensures s.status.armed ==> CleanObject(FireAt(s))
  {
  }

  lemma CleanStep(w: Server, a: Action, w': Server)
    requires Exclusive(w) && Clean(w) && Next(w, a, w') && Tidy(w, a)
    ensures Clean(w')
  {
    match a
    case InitStream(id) =>
    case TakeToken(id, read) =>
      var o := w.streams[id];
      CleanObjects(w.objects[o], read);
      if SideOf(w.objects[o], read).inChannel > 0 { CleanSet(w, o, TakeAt(w.objects[o], read)); }
    case ReportTaken(o, read) =>
      CleanObjects(w.objects[o], read);
      CleanSet(w, o, ReportTakenAt(w.objects[o], read));
    case PutToken(o, read) =>
      CleanObjects(w.objects[o], read);
      CleanSet(w, o, PutAt(w.objects[o], read));
    case ReportReturned(o, read) =>
      CleanObjects(w.objects[o], read);
      CleanSet(w, o, ReportReturnedAt(w.objects[o], read));
    case TimerFires(o) =>
      CleanObjects(w.objects[o], true);
      CleanSet(w, o, FireAt(w.objects[o]));
    case TearDownStale(o) => CleanStale(w, o, w');
    case TearDown(id) => CleanTorn(w, id);
  }

  lemma {:induction false} CleanAlongRun(ws: seq<Server>, acts: seq<Action>, n: nat)
    requires Run(ws, acts) && n <= |acts| && forall i | 0 <= i < n :: Tidy(ws[i], acts[i])
    ensures Clean(ws[n])
  {
    if n > 0 {
      CleanAlongRun(ws, acts, n - 1);
      StreamExclusivity(ws, acts, n - 1);
      CleanStep(ws[n - 1], acts[n - 1], ws[n]);
    }
  }

  /** In every run of tidy steps a stale callback never takes away another stream. */
  lemma CallbacksKeepToTheirOwn(ws: seq<Server>, acts: seq<Action>, n: nat)
    requires Run(ws, acts) && n < |acts| && acts[n].TearDownStale? && forall i | 0 <= i < n :: Tidy(ws[i], acts[i])
    ensures !HitsAnother(ws[n], acts[n].o, ws[n + 1])
  {
    CleanAlongRun(ws, acts, n);
    StreamExclusivity(ws, acts, n);
    assert Next(ws[n], acts[n], ws[n + 1]);
    assert CleanObject(ws[n].objects[acts[n].o]);
    StaleHitsAnotherIff(ws[n], acts[n].o, ws[n + 1]);
  }

  /** A step that is not tidy leaves a removed stream whose callback can still run. */
  lemma UntidyLeavesUnclean(w: Server, a: Action, w': Server) returns (o: nat)
    requires Exclusive(w) && Clean(w) && Next(w, a, w') && !Tidy(w, a)
    ensures o < |w'.objects| && w'.objects[o].torn && (w'.objects[o].fired > 0 || w'.objects[o].status.armed)
  {
    match a
    case TearDown(id) => o := w.streams[id];
    case TearDownStale(k) =>
      o := k;
      assert CleanObject(w.objects[k]);
    case ReportReturned(k, read) => o := k;
  }

  /** And from there a few steps lead to a callback that takes away another stream, so tidiness is what it
      takes. */
  lemma UncleanCanHit(w: Server, o: nat) returns (w1: Server, w2: Server, w3: Server)
    requires Exclusive(w) && o < |w.objects| && w.objects[o].torn
    requires (w.objects[o].fired > 0 || w.objects[o].status.armed)
    ensures w1 == w || Next(w, TimerFires(o), w1)
    ensures Next(w1, InitStream(w.objects[o].id), w2)
    ensures Next(w2, TearDownStale(o), w3) && HitsAnother(w2, o, w3)
  {
    var id := w.objects[o].id;
    w1 := if w.objects[o].fired > 0 then w else SetObject(w, o, FireAt(w.objects[o]));
    if w.objects[o].fired == 0 {
      assert ObjectOk(w.objects[o]);
      ObjectSet(w, o, FireAt(w.objects[o]));
    }
    w2 := if id in w1.streams then w1
          else w1.(objects := w1.objects + [NewStream(id, w1.disabled)], streams := w1.streams[id := |w1.objects|]);
    InitKeeps(w1, id, w2);
    w3 := Torn(SetObject(w2, o, w2.objects[o].(fired := w2.objects[o].fired - 1)), id);
    StaleHitsAnotherIff(w2, o, w3);
  }

  function Named(id: Bytes, o: nat, objects: seq<Stream>): Server {
    Server(false, map[id := o], objects)
  }

  /** A read side being taken, and held. */
  function Taking(id: Bytes): Stream {
    NewStream(id, false).(read := Side(0, 1, 0, 0))
  }

  function Held(id: Bytes): Stream {
    NewStream(id, false).(read := Side(0, 0, 1, 0), status := Status(false, false, true, false))
  }

  /** A removed stream after its reader put the token back, and after he reported it. */
  function PutLate(id: Bytes): Stream {
    Held(id).(torn := true, read := Side(1, 0, 0, 1))
  }

  function BackLate(id: Bytes): Stream {
    NewStream(id, false).(torn := true)
  }

  function LateState(id: Bytes, j: nat): Server {
    var free, gone := NewStream(id, false), Held(id).(torn := true);
    var fired := FireAt(BackLate(id));
    match j
    case 0 => Server(false, map[], [])
    case 1 => Named(id, 0, [free])
    case 2 => Named(id, 0, [Taking(id)])
    case 3 => Named(id, 0, [Held(id)])
    case 4 => Server(false, map[], [gone])
    case 5 => Named(id, 1, [gone, free])
    case 6 => Named(id, 1, [PutLate(id), free])
    case 7 => Named(id, 1, [BackLate(id), free])
    case 8 => Named(id, 1, [fired, free])
    case 9 => Named(id, 1, [fired, Taking(id)])
    case 10 => Named(id, 1, [fired, Held(id)])
    case _ => Server(false, map[], [fired.(fired := 0), gone])
  }

  function LateAction(id: Bytes, j: nat): Action {
    match j
    case 0 => InitStream(id)
    case 1 => TakeToken(id, true)
    case 2 => ReportTaken(0, true)
    case 3 => TearDown(id)
    case 4 => InitStream(id)
    case 5 => PutToken(0, true)
    case 6 => ReportReturned(0, true)
    case 7 => TimerFires(0)
    case 8 => TakeToken(id, true)
    case 9 => ReportTaken(1, true)
    case _ => TearDownStale(0)
  }

  lemma LateFirst(id: Bytes, j: nat)
    requires j < 5
    ensures Next(LateState(id, j), LateAction(id, j), LateState(id, j + 1))
    ensures Gentle(LateState(id, j), LateAction(id, j))
  {
  }

  lemma LateSecond(id: Bytes, j: nat)
    requires 5 <= j < 11
    ensures Next(LateState(id, j), LateAction(id, j), LateState(id, j + 1))
    ensures Gentle(LateState(id, j), LateAction(id, j))
  {
  }

  /** The loss is real, in gentle steps alone: a reader outlives its stream, its late return arms the
      dead stream's timer, and the callback takes away the successor, which a reader is using. */
  lemma StaleCallbackHitsSuccessor(id: Bytes) returns (ws: seq<Server>, acts: seq<Action>)
    ensures Run(ws, acts) && |acts| == 11 && forall i | 0 <= i < 11 :: Gentle(ws[i], acts[i])
    ensures acts[10] == TearDownStale(0) && HitsAnother(ws[10], 0, ws[11])
    ensures |ws[10].objects| == 2 && ws[10].objects[1].read.held == 1 && !ws[10].objects[1].torn
    ensures ws[11].objects[1].torn
  {
    ws, acts := seq(12, j requires j >= 0 => LateState(id, j)), seq(11, j requires j >= 0 => LateAction(id, j));
    forall j | 0 <= j < 11 ensures Next(ws[j], acts[j], ws[j + 1]) && Gentle(ws[j], acts[j]) {
      if j < 5 { LateFirst(id, j); } else { LateSecond(id, j); }
    }
    assert !ws[10].objects[1].torn && ws[11].objects[1].torn;
  }
}
