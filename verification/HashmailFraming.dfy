/** The byte path of a hashmail stream: WriteMsg frames a message, io.Copy moves it from the write
    pipe to the read pipe, a second goroutine reads 4096 bytes at a time and reassembles buffers, and
    ReadNextMsg decodes one message per buffer. The length prefix is BigSize (BOLT #1, "Fundamental
    Types"). */
module HashmailFraming {
  import opened Words

  /** DefaultBufSize. */
  const BUF_SIZE: nat := 4096
  /** The buffer io.Copy allocates. */
  const COPY_SIZE: nat := 32768

  /** A Go slice is shorter than 2^63. */
  type Msg = m: Bytes | |m| < 0x8000_0000_0000_0000

  // ---------------------------------------------------------------- BigSize

  datatype BigSizeError = UnexpectedEof | NotCanonical

  function EncodeBigSize(n: uint64): (s: Bytes)
    ensures 1 <= |s| <= 9
  {
    if n < 0xfd then [n]
    else if n <= 0xffff then [0xfd] + ToBigEndian(n, 2)
    else if n <= 0xffff_ffff then [0xfe] + ToBigEndian(n, 4)
    else [0xff] + ToBigEndian(n, 8)
  }

  /** Reads k big-endian bytes and refuses a value that a shorter form could hold. */
  function DecodeWide(s: Bytes, k: nat, least: nat): Result<(uint64, Bytes), BigSizeError>
    requires k <= 8
  {
    if |s| < k then Err(UnexpectedEof)
    else
      WideFits(s, k);
      var n := FromBigEndian(s[..k]);
      if n < least then Err(NotCanonical) else Ok((n, s[k..]))
  }

  lemma WideFits(s: Bytes, k: nat)
    requires k <= 8 && k <= |s|
    ensures FromBigEndian(s[..k]) < TWO_64
  {
    Widths();
    PowMonotone(k, 8);
  }

  lemma PowMonotone(a: nat, b: nat)
    requires a <= b
    ensures Pow256(a) <= Pow256(b)
  {
    if a < b { PowMonotone(a, b - 1); }
  }

  function DecodeBigSize(s: Bytes): Result<(uint64, Bytes), BigSizeError> {
    if s == [] then Err(UnexpectedEof)
    else if s[0] < 0xfd then Ok((s[0], s[1..]))
    else if s[0] == 0xfd then DecodeWide(s[1..], 2, 0xfd)
    else if s[0] == 0xfe then DecodeWide(s[1..], 4, 0x1_0000)
    else DecodeWide(s[1..], 8, TWO_32)
  }

  lemma WideRoundTrip(tag: byte, n: uint64, k: nat, least: nat, rest: Bytes)
    requires k <= 8 && least <= n < Pow256(k)
    ensures DecodeWide(([tag] + ToBigEndian(n, k) + rest)[1..], k, least) == Ok((n, rest))
  {
    var s := ([tag] + ToBigEndian(n, k) + rest)[1..];
    assert s[..k] == ToBigEndian(n, k) && s[k..] == rest;
    BigEndianExact(n, k);
  }

  lemma BigSizeRoundTrip(n: uint64, rest: Bytes)
    ensures DecodeBigSize(EncodeBigSize(n) + rest) == Ok((n, rest))
  {
    Widths();
    if n < 0xfd {
      assert ([n] + rest)[1..] == rest;
    } else if n <= 0xffff {
      WideRoundTrip(0xfd, n, 2, 0xfd, rest);
    } else if n <= 0xffff_ffff {
      WideRoundTrip(0xfe, n, 4, 0x1_0000, rest);
    } else {
      WideRoundTrip(0xff, n, 8, TWO_32, rest);
    }
  }

  lemma WideCanonical(s: Bytes, k: nat, least: nat)
    requires k <= 8 && |s| >= 1 && DecodeWide(s[1..], k, least).Ok?
    ensures var (n, rest) := DecodeWide(s[1..], k, least).value;
            least <= n < Pow256(k) && s == [s[0]] + ToBigEndian(n, k) + rest
  {
    var t := s[1..];
    FromBigEndianInverse(t[..k]);
    assert s == [s[0]] + t[..k] + t[k..];
  }

  /** Only the canonical encoding decodes, so a prefix has one reading and one spelling. */
  lemma BigSizeCanonical(s: Bytes)
    requires DecodeBigSize(s).Ok?
    ensures s == EncodeBigSize(DecodeBigSize(s).value.0) + DecodeBigSize(s).value.1
  {
    Widths();
    if s[0] < 0xfd {
      assert s == [s[0]] + s[1..];
    } else if s[0] == 0xfd {
      WideCanonical(s, 2, 0xfd);
    } else if s[0] == 0xfe {
      WideCanonical(s, 4, 0x1_0000);
    } else {
      WideCanonical(s, 8, TWO_32);
    }
  }

  /** The widths and marker bytes of "Fundamental Types" in BOLT #1. */
  lemma BigSizeShape(n: uint64)
    ensures var s := EncodeBigSize(n);
            && (n < 253 ==> s == [n])
            && (253 <= n < 0x1_0000 ==> |s| == 3 && s == [253, n / 256, n % 256])
            && (0x1_0000 <= n < 0x1_0000_0000 ==> |s| == 5 && s[0] == 254)
            && (0x1_0000_0000 <= n ==> |s| == 9 && s[0] == 255)
  {
    if 253 <= n < 0x1_0000 {
      BigEndianOrder(n);
    }
  }

  // ---------------------------------------------------------------- frames

  function Frame(m: Msg): (f: Bytes)
    ensures |f| >= 1
  {
    EncodeBigSize(|m|) + m
  }

  function Frames(ms: seq<Msg>): (fs: seq<Bytes>)
    ensures |fs| == |ms|
    ensures forall i | 0 <= i < |ms| :: fs[i] == Frame(ms[i])
  {
    seq(|ms|, i requires 0 <= i < |ms| => Frame(ms[i]))
  }

  /** ReadNextMsg on one reassembled buffer: a LimitReader over what follows the prefix, read to EOF. */
  function ReadNextMsg(b: Bytes): Result<Bytes, BigSizeError> {
    match DecodeBigSize(b)
    case Err(e) => Err(e)
    case Ok((n, rest)) =>
      var limit := if n >= TWO_63 then 0 else n;
      Ok(if limit <= |rest| then rest[..limit] else rest)
  }

  /** Whatever follows the first frame of a buffer is silently dropped. */
  lemma ReadNextMsgTakesFirst(m: Msg, rest: Bytes)
    ensures ReadNextMsg(Frame(m) + rest) == Ok(m)
  {
    assert Frame(m) + rest == EncodeBigSize(|m|) + (m + rest);
    BigSizeRoundTrip(|m|, m + rest);
    assert (m + rest)[..|m|] == m;
  }

  /** A prefix that promises more than there is yields what there is; one that does not fit an int64 limits the
      reader to nothing. */
  lemma ReadNextMsgLimits(n: uint64, rest: Bytes)
    ensures ReadNextMsg(EncodeBigSize(n) + rest)
         == Ok(if n >= 0x8000_0000_0000_0000 then [] else if n <= |rest| then rest[..n] else rest)
  {
    BigSizeRoundTrip(n, rest);
  }

  // ---------------------------------------------------------------- pipes

  ghost predicate NonEmpty(ws: seq<Bytes>) {
    forall i | 0 <= i < |ws| :: |ws[i]| >= 1
  }

  /** The pieces that reads of at most n bytes cut one write into. */
  function Chunks(w: Bytes, n: nat): (cs: seq<Bytes>)
    requires n > 0
    ensures |w| >= 1 ==> NonEmpty(cs)
    decreases |w|
  {
    if |w| <= n then [w] else [w[..n]] + Chunks(w[n..], n)
  }

  function ChunkAll(ws: seq<Bytes>, n: nat): (cs: seq<Bytes>)
    requires n > 0
    ensures NonEmpty(ws) ==> NonEmpty(cs)
  {
    if ws == [] then [] else Chunks(ws[0], n) + ChunkAll(ws[1..], n)
  }

  /** An io.Pipe: a read serves the oldest pending write and never crosses into the next one. */
  class Pipe {
    var writes: seq<Bytes>

    constructor ()
      ensures writes == []
    {
      writes := [];
    }

    method Write(b: Bytes)
      modifies this
      ensures writes == old(writes) + [b]
    {
      writes := writes + [b];
    }

    /** Reads at most n bytes; eof when the writer has closed and nothing is pending. */
    method Read(n: nat) returns (data: Bytes, eof: bool)
      requires n > 0 && NonEmpty(writes)
      modifies this
      ensures eof <==> old(writes) == []
      ensures eof ==> writes == [] && data == []
      ensures !eof ==> 1 <= |data| <= n
      ensures NonEmpty(writes)
      ensures ChunkAll(old(writes), n) == (if eof then [] else [data]) + ChunkAll(writes, n)
      ensures Weight(writes) == Weight(old(writes)) - |data|
    {
      if writes == [] {
        return [], true;
      }
      var w := writes[0];
      eof := false;
      if |w| <= n {
        data := w;
        writes := writes[1..];
      } else {
        data := w[..n];
        writes := [w[n..]] + writes[1..];
        assert Chunks(w, n) == [data] + Chunks(w[n..], n);
        assert ([w[n..]] + old(writes)[1..])[1..] == old(writes)[1..];
      }
    }
  }

  ghost function Weight(ws: seq<Bytes>): nat {
    if ws == [] then 0 else |ws[0]| + Weight(ws[1..])
  }

  /** io.Copy between the two pipes. */
  method CopyPipe(src: Pipe, dst: Pipe)
    requires src != dst && NonEmpty(src.writes) && NonEmpty(dst.writes)
    modifies src, dst
    ensures dst.writes == old(dst.writes) + ChunkAll(old(src.writes), COPY_SIZE)
    ensures src.writes == [] && NonEmpty(dst.writes)
  {
    ghost var goal := dst.writes + ChunkAll(src.writes, COPY_SIZE);
    while true
      invariant NonEmpty(src.writes) && NonEmpty(dst.writes)
      invariant goal == dst.writes + ChunkAll(src.writes, COPY_SIZE)
      decreases Weight(src.writes)
    {
      ghost var rest := ChunkAll(src.writes, COPY_SIZE);
      ghost var sofar := dst.writes;
      var data, eof := src.Read(COPY_SIZE);
      if eof {
        assert goal == sofar + [];
        return;
      }
      dst.Write(data);
      AppendMoves(sofar, data, ChunkAll(src.writes, COPY_SIZE));
    }
  }

  lemma AppendMoves(a: seq<Bytes>, x: Bytes, b: seq<Bytes>)
    ensures a + ([x] + b) == (a + [x]) + b
  {
  }

  /** The buffers handed to readBytesChan: pieces are joined while they are exactly BUF_SIZE long, and
      an unfinished buffer is discarded when the pipe closes. */
  function Regroup(acc: Bytes, pieces: seq<Bytes>): seq<Bytes>
    decreases |pieces|
  {
    if pieces == [] then []
    else if |pieces[0]| == BUF_SIZE then Regroup(acc + pieces[0], pieces[1..])
    else [acc + pieces[0]] + Regroup([], pieces[1..])
  }

  /** The reading goroutine. */
  method Reassemble(src: Pipe) returns (delivered: seq<Bytes>)
    requires NonEmpty(src.writes)
    modifies src
    ensures delivered == Regroup([], ChunkAll(old(src.writes), BUF_SIZE))
  {
    delivered := [];
    while true
      invariant NonEmpty(src.writes)
      invariant Regroup([], ChunkAll(old(src.writes), BUF_SIZE))
             == delivered + Regroup([], ChunkAll(src.writes, BUF_SIZE))
      decreases Weight(src.writes)
    {
      ghost var before := ChunkAll(src.writes, BUF_SIZE);
      ghost var weight := Weight(src.writes);
      var buf, eof := src.Read(BUF_SIZE);
      if eof {
        assert delivered + [] == delivered;
        return;
      }
      var numBytes := |buf|;
      var c := buf;
      assert before[1..] == ChunkAll(src.writes, BUF_SIZE);
      assert [] + buf == c;
      while numBytes == BUF_SIZE
        invariant NonEmpty(src.writes) && Weight(src.writes) < weight
        invariant Regroup([], before) == if numBytes == BUF_SIZE
                                         then Regroup(c, ChunkAll(src.writes, BUF_SIZE))
                                         else [c] + Regroup([], ChunkAll(src.writes, BUF_SIZE))
        decreases Weight(src.writes), numBytes == BUF_SIZE
      {
        ghost var rest := ChunkAll(src.writes, BUF_SIZE);
        buf, eof := src.Read(BUF_SIZE);
        if eof {
          assert delivered + [] == delivered;
          return;
        }
        assert rest == [buf] + ChunkAll(src.writes, BUF_SIZE);
        assert rest[1..] == ChunkAll(src.writes, BUF_SIZE);
        numBytes := |buf|;
        c := c + buf;
      }
      ghost var tail := Regroup([], ChunkAll(src.writes, BUF_SIZE));
      assert delivered + ([c] + tail) == (delivered + [c]) + tail;
      delivered := delivered + [c];
    }
  }

  // ---------------------------------------------------------------- what the pipes do to frames

  lemma {:induction false} ChunksSplit(w: Bytes, k: nat)
    requires 0 < k < |w| && k % BUF_SIZE == 0
    ensures Chunks(w, BUF_SIZE) == Chunks(w[..k], BUF_SIZE) + Chunks(w[k..], BUF_SIZE)
    decreases k
  {
    if k > BUF_SIZE {
      var v := w[BUF_SIZE..];
      ChunksSplit(v, k - BUF_SIZE);
      assert w[..k][..BUF_SIZE] == w[..BUF_SIZE] && w[..k][BUF_SIZE..] == v[..k - BUF_SIZE];
      assert v[k - BUF_SIZE..] == w[k..];
    }
  }

  lemma {:induction false} ChunkAllConcat(a: seq<Bytes>, b: seq<Bytes>, n: nat)
    requires n > 0
    ensures ChunkAll(a + b, n) == ChunkAll(a, n) + ChunkAll(b, n)
  {
    if a == [] {
      assert a + b == b;
    } else {
      assert (a + b)[1..] == a[1..] + b;
      ChunkAllConcat(a[1..], b, n);
    }
  }

  /** Cutting a write into COPY_SIZE pieces first makes no difference to the reader. */
  lemma {:induction false} CopyInvisibleOne(w: Bytes)
    ensures ChunkAll(Chunks(w, COPY_SIZE), BUF_SIZE) == Chunks(w, BUF_SIZE)
    decreases |w|
  {
    if |w| <= COPY_SIZE {
      assert ChunkAll([w], BUF_SIZE) == Chunks(w, BUF_SIZE) + ChunkAll([], BUF_SIZE);
    } else {
      var head, rest := w[..COPY_SIZE], w[COPY_SIZE..];
      ChunkAllConcat([head], Chunks(rest, COPY_SIZE), BUF_SIZE);
      assert ChunkAll([head], BUF_SIZE) == Chunks(head, BUF_SIZE) + ChunkAll([], BUF_SIZE);
      CopyInvisibleOne(rest);
      ChunksSplit(w, COPY_SIZE);
    }
  }

  lemma {:induction false} CopyInvisible(ws: seq<Bytes>)
    ensures ChunkAll(ChunkAll(ws, COPY_SIZE), BUF_SIZE) == ChunkAll(ws, BUF_SIZE)
  {
    if ws != [] {
      ChunkAllConcat(Chunks(ws[0], COPY_SIZE), ChunkAll(ws[1..], COPY_SIZE), BUF_SIZE);
      CopyInvisibleOne(ws[0]);
      CopyInvisible(ws[1..]);
    }
  }

  lemma {:induction false} RegroupOne(acc: Bytes, w: Bytes, rest: seq<Bytes>)
    requires |w| >= 1
    ensures Regroup(acc, Chunks(w, BUF_SIZE) + rest)
         == if |w| % BUF_SIZE == 0 then Regroup(acc + w, rest) else [acc + w] + Regroup([], rest)
    decreases |w|
  {
    var pieces := Chunks(w, BUF_SIZE) + rest;
    if |w| <= BUF_SIZE {
      assert pieces[1..] == rest;
    } else {
      var v := w[BUF_SIZE..];
      assert pieces[1..] == Chunks(v, BUF_SIZE) + rest;
      RegroupOne(acc + w[..BUF_SIZE], v, rest);
      assert acc + w[..BUF_SIZE] + v == acc + w;
    }
  }

  // ---------------------------------------------------------------- delivery

  ghost predicate EndsOnBoundary(m: Msg) {
    |Frame(m)| % BUF_SIZE == 0
  }

  /** What a reader sees of a sequence of messages: a message whose frame ends on a 4096-byte boundary
      swallows the ones after it, up to and including the first that does not end on one. */
  ghost function Surviving(open: Option<Msg>, ms: seq<Msg>): seq<Bytes>
    decreases |ms|
  {
    if ms == [] then []
    else
      var head := if open.Some? then open.value else ms[0];
      if EndsOnBoundary(ms[0]) then Surviving(Some(head), ms[1..])
      else [head] + Surviving(None, ms[1..])
  }

  ghost function Received(buffers: seq<Bytes>): seq<Result<Bytes, BigSizeError>> {
    seq(|buffers|, i requires 0 <= i < |buffers| => ReadNextMsg(buffers[i]))
  }

  ghost function AllOk(ms: seq<Bytes>): seq<Result<Bytes, BigSizeError>> {
    seq(|ms|, i requires 0 <= i < |ms| => Ok(ms[i]))
  }

  lemma ReceivedCons(head: Msg, b: Bytes, buffers: seq<Bytes>, rest: seq<Bytes>)
    requires Frame(head) <= b && Received(buffers) == AllOk(rest)
    ensures Received([b] + buffers) == AllOk([head] + rest)
  {
    assert b == Frame(head) + b[|Frame(head)|..];
    ReadNextMsgTakesFirst(head, b[|Frame(head)|..]);
    assert Received([b] + buffers) == [ReadNextMsg(b)] + Received(buffers);
    assert AllOk([head] + rest) == [Ok(head)] + AllOk(rest);
  }

  lemma PrefixGrows(f: Bytes, acc: Bytes, x: Bytes)
    requires f <= acc
    ensures f <= acc + x
  {
  }

  lemma {:induction false} RegroupFrames(acc: Bytes, open: Option<Msg>, ms: seq<Msg>)
    requires open.None? ==> acc == []
    requires open.Some? ==> Frame(open.value) <= acc
    ensures Received(Regroup(acc, ChunkAll(Frames(ms), BUF_SIZE))) == AllOk(Surviving(open, ms))
    decreases |ms|
  {
    if ms != [] {
      var f, fs := Frame(ms[0]), Frames(ms);
      assert fs[1..] == Frames(ms[1..]);
      RegroupOne(acc, f, ChunkAll(fs[1..], BUF_SIZE));
      var head := if open.Some? then open.value else ms[0];
      if open.Some? {
        PrefixGrows(Frame(head), acc, f);
      } else {
        assert acc + f == f;
      }
      if EndsOnBoundary(ms[0]) {
        RegroupFrames(acc + f, Some(head), ms[1..]);
      } else {
        RegroupFrames([], None, ms[1..]);
        ReceivedCons(head, acc + f, Regroup([], ChunkAll(fs[1..], BUF_SIZE)), Surviving(None, ms[1..]));
      }
    }
  }

  ghost function CountOffBoundary(ms: seq<Msg>): nat {
    if ms == [] then 0 else (if EndsOnBoundary(ms[0]) then 0 else 1) + CountOffBoundary(ms[1..])
  }

  lemma {:induction false} SurvivingCount(open: Option<Msg>, ms: seq<Msg>)
    ensures |Surviving(open, ms)| == CountOffBoundary(ms) <= |ms|
    ensures CountOffBoundary(ms) == |ms| ==> forall i | 0 <= i < |ms| :: !EndsOnBoundary(ms[i])
    decreases |ms|
  {
    if ms != [] {
      SurvivingCount(None, ms[1..]);
      SurvivingCount(Some(if open.Some? then open.value else ms[0]), ms[1..]);
      if CountOffBoundary(ms) == |ms| {
        forall i | 0 <= i < |ms| ensures !EndsOnBoundary(ms[i]) {
          if i > 0 { assert ms[i] == ms[1..][i - 1]; }
        }
      }
    }
  }

  lemma {:induction false} SurvivingAll(ms: seq<Msg>)
    requires forall i | 0 <= i < |ms| :: !EndsOnBoundary(ms[i])
    ensures Surviving(None, ms) == ms
  {
    if ms != [] {
      SurvivingAll(ms[1..]);
    }
  }

  /** Delivery is faithful exactly when no frame ends on a 4096-byte boundary. */
  lemma DeliveredIff(ms: seq<Msg>)
    ensures Surviving(None, ms) == ms <==> forall i | 0 <= i < |ms| :: !EndsOnBoundary(ms[i])
  {
    SurvivingCount(None, ms);
    if forall i | 0 <= i < |ms| :: !EndsOnBoundary(ms[i]) {
      SurvivingAll(ms);
    }
  }

  /** WriteMsg for each message in turn. */
  method WriteAll(ms: seq<Msg>) returns (writePipe: Pipe)
    ensures fresh(writePipe) && writePipe.writes == Frames(ms)
  {
    writePipe := new Pipe();
    for i := 0 to |ms|
      invariant fresh(writePipe) && writePipe.writes == Frames(ms[..i])
    {
      writePipe.Write(EncodeBigSize(|ms[i]|) + ms[i]);
      assert Frames(ms[..i + 1]) == Frames(ms[..i]) + [Frame(ms[i])];
    }
    assert ms[..|ms|] == ms;
  }

  /** ReadNextMsg for each delivered buffer in turn. */
  method ReadAll(buffers: seq<Bytes>) returns (received: seq<Result<Bytes, BigSizeError>>)
    ensures received == Received(buffers)
  {
    received := [];
    for i := 0 to |buffers|
      invariant received == Received(buffers[..i])
    {
      received := received + [ReadNextMsg(buffers[i])];
      assert Received(buffers[..i + 1]) == Received(buffers[..i]) + [ReadNextMsg(buffers[i])];
    }
    assert buffers[..|buffers|] == buffers;
  }

  /** Framing, both pipes, reassembly and decoding together. */
  lemma EndToEndDelivery(ms: seq<Msg>)
    ensures Received(Regroup([], ChunkAll(ChunkAll(Frames(ms), COPY_SIZE), BUF_SIZE))) == AllOk(Surviving(None, ms))
    ensures AllOk(Surviving(None, ms)) == AllOk(ms) <==> forall i | 0 <= i < |ms| :: !EndsOnBoundary(ms[i])
  {
    CopyInvisible(Frames(ms));
    RegroupFrames([], None, ms);
    DeliveredIff(ms);
    AllOkInjective(Surviving(None, ms), ms);
  }

  /** A whole session: every message through WriteMsg, both goroutines, and ReadNextMsg per buffer. */
  method Session(ms: seq<Msg>) returns (received: seq<Result<Bytes, BigSizeError>>)
    ensures received == AllOk(Surviving(None, ms))
    ensures received == AllOk(ms) <==> forall i | 0 <= i < |ms| :: !EndsOnBoundary(ms[i])
  {
    var writePipe := WriteAll(ms);
    var readPipe := new Pipe();
    CopyPipe(writePipe, readPipe);
    assert readPipe.writes == ChunkAll(Frames(ms), COPY_SIZE);
    var buffers := Reassemble(readPipe);
    received := ReadAll(buffers);
    EndToEndDelivery(ms);
  }

  lemma AllOkInjective(a: seq<Bytes>, b: seq<Bytes>)
    ensures AllOk(a) == AllOk(b) <==> a == b
  {
    if AllOk(a) == AllOk(b) {
      forall i | 0 <= i < |a| ensures a[i] == b[i] {
        assert AllOk(a)[i] == AllOk(b)[i];
      }
    }
  }

  /** The loss is real: a 4093-byte message makes a 4096-byte frame, and the message after it never arrives. */
  lemma BoundaryLosesTheNextMessage(m: Msg, next: Msg)
    requires |m| == 4093 && |next| < 0xfd
    ensures Surviving(None, [m, next]) == [m]
    ensures Surviving(None, [m]) == []
  {
    assert |Frame(m)| == 4096 && |Frame(next)| == 1 + |next|;
    assert [m, next][1..] == [next] && [m][1..] == [] && [next][1..] == [];
    assert Surviving(Some(m), [next]) == [m] + Surviving(None, []);
  }
}
