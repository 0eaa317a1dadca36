/** One end of a stream: the half-close machine, the segmenter and the calls upon it (wire/stream.go). */
module Streams {
  import opened Base
  import opened Readers
  import opened Blocks

  const MAX_PAYLOAD: nat := 65535
  const CHANNEL: nat := 128
  const STREAM_CLOSED: nat := 3

  datatype Packet = Data(payload: bytes, endData: bool, endStream: bool) | Reset(code: nat)

  // Segmentation (wire/data.go).

  function Segments(buffer: bytes, endStream: bool): (r: seq<Packet>)
    ensures |r| > 0
    decreases |buffer|
  {
    if |buffer| <= MAX_PAYLOAD then [Data(buffer, true, endStream)]
    else [Data(buffer[..MAX_PAYLOAD], false, endStream)] + Segments(buffer[MAX_PAYLOAD..], endStream)
  }

  method DataFramesFromBuffer(buffer: bytes, endStream: bool) returns (frames: seq<Packet>)
    ensures frames == Segments(buffer, endStream)
  {
    if |buffer| <= MAX_PAYLOAD {
      return [Data(buffer, true, endStream)];
    }
    frames := [Data(buffer[..MAX_PAYLOAD], false, endStream)];
    var written: nat := MAX_PAYLOAD;
    while true
      invariant written < |buffer|
      invariant Segments(buffer, endStream) == frames + Segments(buffer[written..], endStream)
      decreases |buffer| - written
    {
      var toWrite := Min(|buffer| - written, MAX_PAYLOAD);
      var endData := |buffer| - written - toWrite == 0;
      var chunk := buffer[written..written + toWrite];
      assert chunk == buffer[written..][..toWrite];
      assert buffer[written + toWrite..] == buffer[written..][toWrite..];
      assert endData ==> chunk == buffer[written..];
      ghost var rest := Segments(buffer[written..], endStream);
      assert rest == [Data(chunk, endData, endStream)]
        + (if endData then [] else Segments(buffer[written + toWrite..], endStream));
      frames := frames + [Data(chunk, endData, endStream)];
      written := written + toWrite;
      if endData {
        break;
      }
    }
  }

  ghost function Payloads(ps: seq<Packet>): bytes {
    if ps == [] then [] else (if ps[0].Data? then ps[0].payload else []) + Payloads(ps[1..])
  }

  /**
   * The segments carry the buffer in order, none over 65535 bytes, only the last marked as the end
   * of the data - and every one of them marked with the end-of-stream flag of the whole write.
   */
  lemma {:induction false} SegmentsCarry(buffer: bytes, endStream: bool)
    ensures var s := Segments(buffer, endStream);
      && Payloads(s) == buffer
      && (forall i :: 0 <= i < |s| ==> s[i].Data? && |s[i].payload| <= MAX_PAYLOAD && s[i].endStream == endStream)
      && (forall i :: 0 <= i < |s| ==> (s[i].endData <==> i == |s| - 1))
      && s[0].payload == buffer[..Min(|buffer|, MAX_PAYLOAD)]
    decreases |buffer|
  {
    if |buffer| > MAX_PAYLOAD {
      SegmentsCarry(buffer[MAX_PAYLOAD..], endStream);
      assert Segments(buffer, endStream)[1..] == Segments(buffer[MAX_PAYLOAD..], endStream);
      assert buffer == buffer[..MAX_PAYLOAD] + buffer[MAX_PAYLOAD..];
    } else {
      assert Segments(buffer, endStream)[1..] == [];
      assert buffer[..|buffer|] == buffer;
    }
  }

  // The state machine (wire/stream_state.go).

  datatype Code = Open | HalfLocal | HalfRemote | Closed {
    function Rank(): nat { if Open? then 0 else if Closed? then 2 else 1 }

    function AfterLocal(): Code { if Open? || HalfLocal? then HalfLocal else Closed }

    function AfterRemote(): Code { if Open? || HalfRemote? then HalfRemote else Closed }
  }

  datatype State = State(code: Code, err: Option<Error>) {
    /** What RecvResetStream answers. */
    function RecvReset(): Option<Error> {
      if err.Some? then err else if code.Closed? then Some(ClosedStream) else None
    }

    function RecvData(): Option<Error> {
      if err.Some? then err else if code.Closed? || code.HalfRemote? then Some(ClosedStream) else None
    }

    /** What SendData and SendResetStream, which agree, answer. */
    function Send(): Option<Error> {
      if err.Some? then err else if code.Closed? || code.HalfLocal? then Some(ClosedStream) else None
    }
  }

  // The calls, as functions of an endpoint. `out` is what they hand to the connection.

  datatype Endpoint = Endpoint(state: State, reader: Queue)

  const NewEndpoint: Endpoint := Endpoint(State(Open, None), Queue([], [], false))

  datatype Reply = Reply(ep: Endpoint, out: seq<Packet>, err: Option<Error>)

  function WriteCall(e: Endpoint, data: bytes, endStream: bool): Reply {
    if e.state.Send().Some? then Reply(e, [], e.state.Send())
    else
      var code := if endStream then e.state.code.AfterLocal() else e.state.code;
      Reply(e.(state := e.state.(code := code)), Segments(data, endStream), None)
  }

  function CloseCall(e: Endpoint): Reply {
    if e.state.Send().Some? then Reply(e, [], e.state.Send())
    else Reply(e.(state := e.state.(code := e.state.code.AfterLocal())), [Data([], true, true)], None)
  }

  function ResetCall(e: Endpoint, code: nat): Reply {
    if e.state.Send().Some? then Reply(e, [], e.state.Send())
    else
      Reply(Endpoint(e.state.(code := Closed), e.reader.(closed := true)), [Packet.Reset(code)], None)
  }

  function HandleReset(e: Endpoint, code: nat): Reply {
    if e.state.RecvReset().Some? then Reply(e, [Packet.Reset(STREAM_CLOSED)], None)
    else Reply(Endpoint(State(Closed, Some(StreamReset(code))), e.reader.(closed := true)), [], None)
  }

  function HandleData(e: Endpoint, payload: bytes, endStream: bool): Reply {
    if e.state.RecvData().Some? then Reply(e, [Packet.Reset(STREAM_CLOSED)], None)
    else
      var code := if endStream then e.state.code.AfterRemote() else e.state.code;
      Reply(Endpoint(e.state.(code := code), Enqueued(e.reader, payload)), [], None)
  }

  function Handle(e: Endpoint, p: Packet): Reply {
    match p
    case Data(payload, _, endStream) => HandleData(e, payload, endStream)
    case Reset(code) => HandleReset(e, code)
  }

  /** A delivery waits while it would put a block into a full channel. */
  predicate Full(e: Endpoint, p: Packet) {
    p.Data? && p.payload != [] && e.state.RecvData().None? && !e.reader.closed && |e.reader.blocks| >= CHANNEL
  }

  function ReadOutcome(e: Endpoint, n: nat): Outcome {
    if e.state.err.Some? then Fail(e.state.err.value)
    else if TakeOutcome(e.reader, n).Waits? && e.state.RecvData().Some? then Fail(e.state.RecvData().value)
    else TakeOutcome(e.reader, n)
  }

  // Read in its two moves: others can come in between the first, TryRead, and the rest.

  /** The rest: the state, and then the blocking read. */
  function RestOutcome(e: Endpoint, n: nat): Outcome {
    if e.state.RecvData().Some? then Fail(e.state.RecvData().value) else TakeOutcome(e.reader, n)
  }

  function AfterRest(e: Endpoint, n: nat): Endpoint {
    if e.state.RecvData().Some? then e else e.(reader := Take(e.reader, n))
  }

  /** A Read whose first move finds `e`, and whose rest finds `later`. */
  function SplitOutcome(e: Endpoint, later: Endpoint, n: nat): Outcome {
    if e.state.err.Some? then Fail(e.state.err.value)
    else if !TakeOutcome(e.reader, n).Waits? then TakeOutcome(e.reader, n)
    else RestOutcome(later, n)
  }

  function AfterRead(e: Endpoint, n: nat): Endpoint {
    if e.state.err.Some? then e else e.(reader := Take(e.reader, n))
  }

  /** The block, if any, that a stream's reader accepts with a DATA payload. */
  function TakesIn(e: Endpoint, payload: bytes): seq<bytes> {
    if e.state.RecvData().None? && payload != [] && !e.reader.closed then [payload] else []
  }

  // What a reader of the stream reads.

  /**
   * The stream as an input: all blocks ever accepted, `p` of their bytes read. A stream that was reset
   * has no more bytes, a closed reader only those of the block it is in; an open one answers at the
   * end of its blocks what the state machine says, or waits.
   */
  function Incoming(e: Endpoint, taken: seq<bytes>, p: nat, known: set<bytes>): Input {
    var all := Flat(taken);
    if e.state.err.Some? then Input(all[..Min(p, |all|)], {}, e.state.err.value, known)
    else if e.reader.closed then Input(all[..Min(p + |e.reader.buf|, |all|)], {}, EOF, known)
    else FromBlocks(taken, if e.state.RecvData().Some? then e.state.RecvData().value else WouldBlock, known)
  }

  /** A Read does what a read of the input does, and leaves the input as it is. */
  ghost predicate ReadAgrees(e: Endpoint, taken: seq<bytes>, p: nat, n: nat, known: set<bytes>) {
    var inp := Incoming(e, taken, p, known);
    && p <= |inp.data|
    && match ReadOutcome(e, n)
       case Got(bs) =>
         && Readers.Read(inp, p, NoLimit(inp), n) == Ok(bs, p + |bs|)
         && Incoming(AfterRead(e, n), taken, p + |bs|, known) == inp
       case Fail(x) => Readers.Read(inp, p, NoLimit(inp), n) == Err(x, p) && AfterRead(e, n) == e
       case Waits => Readers.Read(inp, p, NoLimit(inp), n) == Err(WouldBlock, p) && AfterRead(e, n) == e
  }

  /**
   * In every state of the stream, open, ended, closed or reset: what is proved of decoding from
   * inputs holds of decoding from streams.
   */
  lemma ReadIsRead(e: Endpoint, taken: seq<bytes>, p: nat, n: nat, known: set<bytes>)
    requires NonEmpty(taken) && p <= |Flat(taken)| && Remains(e.reader, taken, p)
    ensures ReadAgrees(e, taken, p, n, known)
  {
    if e.state.err.Some? {
      hide Flat;
    } else if e.reader.closed {
      ReadWhenClosed(e, taken, p, n, known);
    } else {
      ReadWhenOpen(e, taken, p, n, known);
    }
  }

  lemma IncomingClosed(e: Endpoint, taken: seq<bytes>, p: nat, known: set<bytes>)
    requires e.state.err.None? && e.reader.closed && p + |e.reader.buf| <= |Flat(taken)|
    ensures Incoming(e, taken, p, known) == Input(Flat(taken)[..p + |e.reader.buf|], {}, EOF, known)
  {
    hide Flat;
  }

  lemma OutcomeClosed(e: Endpoint, n: nat)
    requires e.state.err.None? && e.reader.closed
    ensures ReadOutcome(e, n) == TakeOutcome(e.reader, n) && AfterRead(e, n) == e.(reader := Take(e.reader, n))
    ensures !TakeOutcome(e.reader, n).Waits? && Take(e.reader, n).closed
    ensures !TakeOutcome(e.reader, n).Got? ==> Take(e.reader, n) == e.reader
  {
  }

  lemma ReadWhenClosed(e: Endpoint, taken: seq<bytes>, p: nat, n: nat, known: set<bytes>)
    requires NonEmpty(taken) && p <= |Flat(taken)| && Remains(e.reader, taken, p)
    requires e.state.err.None? && e.reader.closed
    ensures ReadAgrees(e, taken, p, n, known)
  {
    hide Flat, Take, TakeOutcome, Remains, Readers.Read, Incoming, ReadOutcome, AfterRead, NonEmpty, Drop;
    ClosedRead(e.reader, taken, p, n, known);
    OutcomeClosed(e, n);
    IncomingClosed(e, taken, p, known);
    var o := TakeOutcome(e.reader, n);
    if o.Got? {
      IncomingClosed(AfterRead(e, n), taken, p + |o.bs|, known);
    }
  }

  lemma ReadWhenOpen(e: Endpoint, taken: seq<bytes>, p: nat, n: nat, known: set<bytes>)
    requires NonEmpty(taken) && p <= |Flat(taken)| && Remains(e.reader, taken, p)
    requires e.state.err.None? && !e.reader.closed
    ensures ReadAgrees(e, taken, p, n, known)
  {
    RemainsNonEmpty(e.reader, taken, p);
    TakeConserves(e.reader, n);
    var tail := if e.state.RecvData().Some? then e.state.RecvData().value else WouldBlock;
    QueueIsInput(e.reader, taken, p, n, tail, known);
    hide Flat, Take, TakeOutcome, Remains, Held, Readers.Read, Ends;
  }

  /** A closed reader hands over the block it is in, and nothing more. */
  lemma ClosedRead(q: Queue, taken: seq<bytes>, p: nat, n: nat, known: set<bytes>)
    requires NonEmpty(taken) && p <= |Flat(taken)| && Remains(q, taken, p) && q.closed
    ensures p + |q.buf| <= |Flat(taken)|
    ensures var inp := Input(Flat(taken)[..p + |q.buf|], {}, EOF, known);
      match TakeOutcome(q, n)
      case Got(bs) => Readers.Read(inp, p, NoLimit(inp), n) == Ok(bs, p + |bs|) && |Take(q, n).buf| == |q.buf| - |bs|
      case Fail(x) => Readers.Read(inp, p, NoLimit(inp), n) == Err(x, p)
      case Waits => false
  {
    hide Flat, Drop;
    TakeRemains(q, taken, p, |q.buf|);
    assert q.buf != [] ==> TakeOutcome(q, |q.buf|) == Got(q.buf);
    if q.buf != [] {
      var inp := Input(Flat(taken)[..p + |q.buf|], {}, EOF, known);
      assert q.buf == Flat(taken)[p..p + |q.buf|];
      assert BlockEnd(inp, p) == p + |q.buf|;
      var k := Min(n, |q.buf|);
      assert inp.data[p..p + k] == q.buf[..k];
    }
  }

  lemma FirstIsRead(e: Endpoint, n: nat)
    ensures e.state.err.Some? ==> ReadOutcome(e, n) == Fail(e.state.err.value)
    ensures e.state.err.None? && !TakeOutcome(e.reader, n).Waits? ==> ReadOutcome(e, n) == TakeOutcome(e.reader, n)
    ensures e.state.err.None? && TakeOutcome(e.reader, n).Waits? ==> ReadOutcome(e, n) == RestOutcome(e, n)
  {
    hide TakeOutcome;
  }

  /** With nothing in between the two moves are the atomic Read. */
  lemma SplitIsWhole(e: Endpoint, n: nat)
    ensures SplitOutcome(e, e, n) == ReadOutcome(e, n)
  {
    hide TakeOutcome;
  }

  lemma WaitingStays(e: Endpoint, n: nat)
    requires NonEmpty(e.reader.blocks) && e.state.err.None? && TakeOutcome(e.reader, n).Waits?
    ensures AfterRead(e, n) == e && AfterRest(e, n) == e
  {
    TakeConserves(e.reader, n);
    hide Take, TakeOutcome, Held, NonEmpty;
  }

  // The object.

  class Stream {
    var code: Code
    var err: Option<Error>
    const reader: BlockReader
    var sent: seq<Packet>

    function View(): Endpoint
      reads this, reader
    {
      Endpoint(State(code, err), reader.View())
    }

    function Now(): State
      reads this
    {
      State(code, err)
    }

    ghost predicate Valid()
      reads this, reader
    {
      reader.Valid()
    }

    constructor ()
      ensures Valid() && View() == NewEndpoint && sent == [] && fresh(reader)
      ensures reader.taken == [] && reader.handed == 0
    {
      code, err, sent := Open, None, [];
      reader := new BlockReader();
    }

    /** wire/stream.go:79-97. */
    method Write(data: bytes, endStream: bool) returns (e: Option<Error>)
      requires Valid()
      modifies this
      ensures Valid()
      ensures var r := WriteCall(old(View()), data, endStream);
        View() == r.ep && sent == old(sent) + r.out && e == r.err
    {
      e := Now().Send();
      if e.Some? {
        return;
      }
      var frames := DataFramesFromBuffer(data, endStream);
      for i := 0 to |frames|
        invariant sent == old(sent) + frames[..i] && View() == old(View()) && Valid()
      {
        sent := sent + [frames[i]];
      }
      assert frames[..|frames|] == frames;
      if endStream {
        code := code.AfterLocal();
      }
    }

    /** wire/stream.go:134-148. */
    method CloseLocal() returns (e: Option<Error>)
      requires Valid()
      modifies this
      ensures Valid()
      ensures var r := CloseCall(old(View()));
        View() == r.ep && sent == old(sent) + r.out && e == r.err
    {
      e := Now().Send();
      if e.Some? {
        return;
      }
      code := code.AfterLocal();
      sent := sent + [Data([], true, true)];
    }

    /** wire/stream.go:108-116. */
    method Reset(reason: nat) returns (e: Option<Error>)
      requires Valid()
      modifies this, reader
      ensures Valid()
      ensures var r := ResetCall(old(View()), reason);
        View() == r.ep && sent == old(sent) + r.out && e == r.err
    {
      e := Now().Send();
      if e.Some? {
        return;
      }
      code := Closed;
      reader.InternalClose();
      sent := sent + [Packet.Reset(reason)];
    }

    /** wire/stream.go:44-59. */
    method HandleResetStream(reason: nat)
      requires Valid()
      modifies this, reader
      ensures Valid()
      ensures var r := HandleReset(old(View()), reason);
        View() == r.ep && sent == old(sent) + r.out
    {
      if Now().RecvReset().Some? {
        sent := sent + [Packet.Reset(STREAM_CLOSED)];
        return;
      }
      code := Closed;
      err := Some(StreamReset(reason));
      reader.InternalClose();
    }

    /** wire/stream.go:61-71. */
    method HandleDataFrame(payload: bytes, endStream: bool)
      requires Valid()
      modifies this, reader
      ensures Valid()
      ensures var r := HandleData(old(View()), payload, endStream);
        View() == r.ep && sent == old(sent) + r.out
      ensures reader.handed == old(reader.handed)
      ensures reader.taken == old(reader.taken) + TakesIn(old(View()), payload)
    {
      if Now().RecvData().Some? {
        sent := sent + [Packet.Reset(STREAM_CLOSED)];
        return;
      }
      reader.Enqueue(payload);
      if endStream {
        code := code.AfterRemote();
      }
    }

    /** wire/stream.go:119-125: the first move; `ok` when it settles the call. */
    method ReadFirst(into: array<byte>) returns (ok: bool, n: nat, e: Option<Error>)
      requires Valid()
      modifies reader, into
      ensures Valid() && View() == AfterRead(old(View()), into.Length)
      ensures reader.taken == old(reader.taken) && reader.handed == old(reader.handed) + n
      ensures n <= into.Length && into[n..] == old(into[n..])
      ensures if err.Some? then ok && n == 0 && e == err
        else match TakeOutcome(old(View().reader), into.Length)
          case Got(bs) => ok && e == None && into[..n] == bs
          case Fail(error) => ok && e == Some(error) && n == 0
          case Waits => !ok && e == None && n == 0
    {
      if err.Some? {
        return true, 0, err;
      }
      ok, n, e := reader.TryRead(into);
    }

    /** wire/stream.go:127-131: the rest; `waits` where the source blocks for the next block. */
    method ReadRest(into: array<byte>) returns (n: nat, e: Option<Error>, waits: bool)
      requires Valid()
      modifies reader, into
      ensures Valid() && View() == AfterRest(old(View()), into.Length)
      ensures reader.taken == old(reader.taken) && reader.handed == old(reader.handed) + n
      ensures n <= into.Length && into[n..] == old(into[n..])
      ensures match RestOutcome(old(View()), into.Length)
        case Got(bs) => !waits && e == None && into[..n] == bs
        case Fail(error) => !waits && e == Some(error) && n == 0
        case Waits => waits && e == None && n == 0
    {
      e := Now().RecvData();
      if e.Some? {
        return 0, e, false;
      }
      var ok;
      ok, n, e := reader.TryRead(into);
      return n, e, !ok;
    }

    /** wire/stream.go:118-132; `waits` where the source blocks for the next block. */
    method Read(into: array<byte>) returns (n: nat, e: Option<Error>, waits: bool)
      requires Valid()
      modifies reader, into
      ensures Valid() && View() == AfterRead(old(View()), into.Length)
      ensures reader.taken == old(reader.taken) && reader.handed == old(reader.handed) + n
      ensures n <= into.Length && into[n..] == old(into[n..])
      ensures match ReadOutcome(old(View()), into.Length)
        case Got(bs) => !waits && e == None && into[..n] == bs
        case Fail(error) => !waits && e == Some(error) && n == 0
        case Waits => waits && e == None && n == 0
    {
      FirstIsRead(View(), into.Length);
      if err.None? && TakeOutcome(View().reader, into.Length).Waits? {
        WaitingStays(View(), into.Length);
      }
      hide Take, TakeOutcome, ReadOutcome, RestOutcome, AfterRead, AfterRest, SplitOutcome, Remains, NonEmpty;
      var ok;
      ok, n, e := ReadFirst(into);
      if ok {
        return n, e, false;
      }
      n, e, waits := ReadRest(into);
    }
  }
}
