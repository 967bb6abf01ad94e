/** The two token files of a FileStore. A write can complete, leave the file as it was, or leave it torn;
    the process can die before, during or after it. */
module TokenStore {
  import opened TokenCodec

  datatype File = Absent | Holds(token: Token) | Torn

  datatype Files = Files(paid: File, pending: File)

  datatype Current = Found(token: Token) | NoToken | Broken

  /** The environment of one store operation. */
  datatype Io = Io(readFails: bool, write: WriteOutcome, removeFails: bool, dies: Death)
  datatype WriteOutcome = Written | Untouched | LeftTorn
  datatype Death = Never | BeforeWrite | DuringWrite | AfterWrite

  datatype Outcome = Done | NotStored | Died

  function ReadToken(f: File): Current {
    match f
    case Absent => Broken
    case Holds(t) => Found(t)
    case Torn => Broken
  }

  /** currentToken: the paid file wins. */
  function CurrentOf(fs: Files): Current {
    if fs.paid != Absent then ReadToken(fs.paid)
    else if fs.pending != Absent then ReadToken(fs.pending)
    else NoToken
  }

  function WriteFile(f: File, t: Token, io: Io): File {
    if io.dies == BeforeWrite || (io.dies == Never && io.write == Untouched) then f
    else if io.dies == DuringWrite || (io.dies == Never && io.write == LeftTorn) then Torn
    else Holds(t)
  }

  predicate WriteSucceeds(io: Io) {
    io.dies == Never && io.write == Written
  }

  /** The files after StoreToken. */
  function AfterStore(fs: Files, t: Token, io: Io): Files {
    if io.readFails then fs
    else match CurrentOf(fs)
      case Broken => fs
      case NoToken =>
        if IsPending(t) then fs.(pending := WriteFile(fs.pending, t, io)) else fs.(paid := WriteFile(fs.paid, t, io))
      case Found(cur) =>
        if IsPending(cur) && !IsPending(t) && cur.paymentHash == t.paymentHash then
          var paid := WriteFile(fs.paid, t, io);
          Files(paid, if WriteSucceeds(io) && !io.removeFails then Absent else fs.pending)
        else fs
  }

  class FileStore {
    var paid: File
    var pending: File

    ghost function Contents(): Files
      reads this
    {
      Files(paid, pending)
    }

    constructor ()
      ensures Contents() == Files(Absent, Absent)
    {
      paid, pending := Absent, Absent;
    }

    method CurrentToken(io: Io) returns (c: Current)
      ensures c == if io.readFails then Broken else CurrentOf(Contents())
    {
      if io.readFails {
        return Broken;
      }
      if paid != Absent {
        return ReadToken(paid);
      }
      if pending != Absent {
        return ReadToken(pending);
      }
      return NoToken;
    }

    /** StoreToken: the paid file is written before the pending one is removed, and removing is best effort. */
    method StoreToken(newToken: Token, io: Io) returns (r: Outcome)
      modifies this
      ensures Contents() == AfterStore(old(Contents()), newToken, io)
      ensures r == Done ==> CurrentOf(Contents()) == Found(newToken) && (IsPending(newToken) || paid == Holds(newToken))
      ensures r == Done <==>
                && !io.readFails && WriteSucceeds(io)
                && (|| old(paid == Absent && pending == Absent)
                    || (&& old(paid == Absent && pending.Holds? && IsPending(pending.token)) && !IsPending(newToken)
                        && old(pending).token.paymentHash == newToken.paymentHash)
                    || (&& old(paid.Holds? && IsPending(paid.token)) && !IsPending(newToken)
                        && old(paid).token.paymentHash == newToken.paymentHash))
      ensures io.dies == Never ==> r != Died
    {
      var current := CurrentToken(io);
      match current
      case NoToken =>
        if IsPending(newToken) {
          pending := WriteFile(pending, newToken, io);
        } else {
          paid := WriteFile(paid, newToken, io);
        }
        return if io.dies != Never then Died else if WriteSucceeds(io) then Done else NotStored;
      case Broken =>
        return NotStored;
      case Found(cur) =>
        if !(IsPending(cur) && !IsPending(newToken)) {
          return NotStored;
        }
        if cur.paymentHash != newToken.paymentHash {
          return NotStored;
        }
        paid := WriteFile(paid, newToken, io);
        if io.dies != Never {
          return Died;
        }
        if !WriteSucceeds(io) {
          return NotStored;
        }
        if !io.removeFails {
          pending := Absent;
        }
        return Done;
    }

    /** RemovePendingToken. */
    method RemovePendingToken(io: Io) returns (ok: bool)
      modifies this
      ensures Contents() == AfterRemove(old(Contents()), io)
      ensures ok <==> old(pending) != Absent && !io.removeFails && io.dies == Never
    {
      if pending == Absent {
        return false;
      }
      if !io.removeFails && io.dies != BeforeWrite {
        pending := Absent;
      }
      ok := !io.removeFails && io.dies == Never;
    }
  }

  function AfterRemove(fs: Files, io: Io): Files {
    if io.removeFails || io.dies == BeforeWrite then fs else fs.(pending := Absent)
  }

  // ---------------------------------------------------------------- runs of store operations

  datatype Op = Store(token: Token, io: Io) | Remove(io: Io)

  function Apply(fs: Files, op: Op): Files {
    match op
    case Store(t, io) => AfterStore(fs, t, io)
    case Remove(io) => AfterRemove(fs, io)
  }

  ghost predicate Sound(fs: Files) {
    && (fs.paid.Holds? ==> !IsPending(fs.paid.token))
    && (fs.pending.Holds? ==> IsPending(fs.pending.token))
    && (fs.paid.Holds? && fs.pending.Holds? ==> fs.paid.token.paymentHash == fs.pending.token.paymentHash)
  }

  /** What one operation keeps, and what it may do to the paid file. */
  lemma StepKeepsPaid(fs: Files, op: Op)
    requires Sound(fs)
    ensures Sound(Apply(fs, op))
    ensures fs.paid != Absent ==> Apply(fs, op).paid == fs.paid
    ensures fs.paid == Absent && fs.pending.Holds? && Apply(fs, op).paid.Holds? ==>
              Apply(fs, op).paid.token.paymentHash == fs.pending.token.paymentHash
  {
  }

  ghost predicate Run(fss: seq<Files>, ops: seq<Op>) {
    && |fss| == |ops| + 1 && fss[0] == Files(Absent, Absent)
    && forall i | 0 <= i < |ops| :: fss[i + 1] == Apply(fss[i], ops[i])
  }

  /** Over every sequence of store operations, with failed and torn writes, failed removals and deaths at
      any point: the paid file never holds a pending token, is what currentToken returns, matches the
      pending token it replaces, and never changes again. */
  lemma {:induction false} PaidTokenPermanence(fss: seq<Files>, ops: seq<Op>, n: nat, m: nat)
    requires Run(fss, ops) && n <= m <= |ops|
    ensures Sound(fss[m])
    ensures fss[m].paid.Holds? ==> CurrentOf(fss[m]) == Found(fss[m].paid.token) && !IsPending(fss[m].paid.token)
    ensures fss[n].paid != Absent ==> fss[m].paid == fss[n].paid
    ensures m < |ops| && fss[m].paid == Absent && fss[m].pending.Holds? && fss[m + 1].paid.Holds? ==>
              fss[m + 1].paid.token.paymentHash == fss[m].pending.token.paymentHash
    decreases m
  {
    if m > 0 {
      PaidTokenPermanence(fss, ops, if n < m then n else m - 1, m - 1);
      StepKeepsPaid(fss[m - 1], ops[m - 1]);
    }
    if m < |ops| {
      StepKeepsPaid(fss[m], ops[m]);
    }
  }
}
