/** The streaming context of a call (context.go). */
module Contexts {
  import opened Base
  import opened Readers
  import opened Blocks
  import opened Values
  import opened Messages
  import opened Streams
  import opened MessageLoops
  import opened Codec

  datatype Trouble =
    | NoStream                                 // rpc.NoStreamError
    | Broken(error: Error)                     // an error of the stream or of a message read from it
    | Unexpected                               // rpc.StreamFailure: a message of the wrong kind
    | StreamEnded                              // rpc.StreamEndError
    | PeerError(status: nat, meta: Metadata)   // *rpc.StreamError
    | NotEncodable

  datatype Ctx = Ctx(
    hasRecv: bool, recvStarted: bool, recvError: Option<Trouble>,
    hasSend: bool, sendStarted: bool, sendError: Option<Trouble>,
    err: Option<Trouble>, meta: Metadata)

  /** `Waiting` is a call still under way: it goes on, from the context it has reached, once more has arrived. */
  datatype Result = Item(value: Decoded) | Answered(response: Message<Decoded>) | Failed(trouble: Trouble) | Waiting

  /** One Recv or ReadResponse: what it returns, the context afterwards, and where the stream's reader stands. */
  datatype Received = Received(result: Result, ctx: Ctx, pos: nat)

  /** A message that cannot be read: it has not all arrived, or the stream fails. */
  function Unread(c: Ctx, pos: nat, e: Error, p: nat): Received {
    if e == WouldBlock then Received(Waiting, c, pos)
    else Received(Failed(Broken(e)), c.(err := Some(Broken(e))), p)
  }

  function Recv(c: Ctx, inp: Input, pos: nat): (r: Received)
    requires pos <= |inp.data|
    ensures pos <= r.pos <= |inp.data|
  {
    if !c.hasRecv then Received(Failed(NoStream), c, pos)
    else if c.err.Some? then Received(Failed(c.err.value), c, pos)
    else if c.recvError.Some? then Received(Failed(c.recvError.value), c, pos)
    else if c.recvStarted then RecvItem(c, inp, pos)
    else
      match ReadMessage(inp, pos)
      case Err(e, p) => Unread(c, pos, e, p)
      case Ok(m, p) =>
        if m.StartStream? then RecvItem(c.(recvStarted := true), inp, p)
        else Received(Failed(Unexpected), c.(err := Some(Unexpected)), p)
  }

  /** context.go:63-86: metadata is noted on the way to the next item. */
  function RecvItem(c: Ctx, inp: Input, pos: nat): (r: Received)
    requires pos <= |inp.data|
    ensures pos <= r.pos <= |inp.data|
    decreases |inp.data| - pos
  {
    match ReadMessage(inp, pos)
    case Err(e, p) => Unread(c, pos, e, p)
    case Ok(m, p) =>
      match m
      case StreamItem(v) => Received(Item(v), c, p)
      case EndStream => Received(Failed(StreamEnded), c.(recvError := Some(StreamEnded)), p)
      case StreamError(s, meta) =>
        Received(Failed(PeerError(s, meta)), c.(recvError := Some(PeerError(s, meta))), p)
      case StreamMetadata(meta) => RecvItem(c.(meta := meta), inp, p)
      case _ => Received(Failed(Unexpected), c.(err := Some(Unexpected)), p)
  }

  function TakeResponse(c: Ctx, inp: Input, pos: nat): (r: Received)
    requires pos <= |inp.data|
    ensures pos <= r.pos <= |inp.data|
  {
    if c.err.Some? then Received(Failed(c.err.value), c, pos)
    else
      match ReadExpected(2, inp, pos)
      case Err(e, p) => Unread(c, pos, e, p)
      case Ok(m, p) => Received(Answered(m), c.(hasRecv := m.streaming, meta := m.meta), p)
  }

  /** A call that writes: the context and endpoint afterwards, what went out, and the error returned. */
  datatype Sent = Sent(ctx: Ctx, ep: Endpoint, out: seq<Packet>, err: Option<Trouble>)

  function Then(c: Ctx, r: Reply): Sent {
    var t := if r.err.Some? then Some(Broken(r.err.value)) else None;
    Sent(if r.err.Some? then c.(err := t) else c, r.ep, r.out, t)
  }

  ghost function Send(c: Ctx, e: Endpoint, v: Value): Sent {
    if !c.hasSend then Sent(c, e, [], Some(NoStream))
    else if c.err.Some? then Sent(c, e, [], c.err)
    else if c.sendError.Some? then Sent(c, e, [], c.sendError)
    else if c.sendStarted then SendItem(c, e, v)
    else
      var s := Then(c, WriteCall(e, Wrap(StartStream), false));
      if s.err.Some? then s
      else
        var t := SendItem(c.(sendStarted := true), s.ep, v);
        t.(out := s.out + t.out)
  }

  ghost function SendItem(c: Ctx, e: Endpoint, v: Value): Sent {
    if !Supported(v) then Sent(c.(sendError := Some(NotEncodable)), e, [], Some(NotEncodable))
    else Then(c, WriteCall(e, Wrap(StreamItem(v)), false))
  }

  function EndSend(c: Ctx, e: Endpoint): Sent {
    if !c.hasSend then Sent(c, e, [], Some(NoStream))
    else if c.err.Some? then Sent(c, e, [], c.err)
    else if c.sendError.Some? then Sent(c, e, [], c.sendError)
    else Then(c, WriteCall(e, Wrap(EndStream), true))
  }

  /** Its Write error is returned but not kept. */
  ghost function SendResponse(c: Ctx, e: Endpoint, m: Message<Value>): Sent
    requires m.Response?
  {
    if !AllSupported(m.params) then Sent(c, e, [], Some(NotEncodable))
    else
      var r := WriteCall(e, Wrap(m), !m.streaming);
      Sent(c.(hasSend := m.streaming, sendStarted := false), r.ep, r.out,
           if r.err.Some? then Some(Broken(r.err.value)) else None)
  }

  const INTERNAL_ERROR: nat := 2

  /** What a handler that failed is reported with: within a stream that has started, or as a response. */
  function FailureMessage(c: Ctx, status: nat, meta: Metadata): Message<Value> {
    if c.sendStarted then StreamError(status, meta) else Response(status, false, meta, [])
  }

  /** server.go:266-300: a last write, and a reset if that fails. */
  function EmitError(c: Ctx, e: Endpoint, status: nat, meta: Metadata): Reply {
    var w := WriteCall(e, Wrap(FailureMessage(c, status, meta)), true);
    if w.err.None? then w
    else
      var r := ResetCall(w.ep, INTERNAL_ERROR);
      Reply(r.ep, w.out + r.out, None)
  }

  lemma Slices(data: bytes, a: nat, b: nat, c: nat)
    requires a <= b <= c <= |data|
    ensures data[a..b] + data[b..c] == data[a..c]
  {
  }

  lemma FailureReady(c: Ctx, status: nat, meta: Metadata)
    ensures ReadyMessage(FailureMessage(c, status, meta)) && CanEncode(FailureMessage(c, status, meta))
  {
    NoItemsAt();
  }

  lemma NoItemsAt()
    ensures AllReady([]) && AllSupported([])
  {
    JoinNil();
  }

  lemma AlwaysReady()
    ensures ReadyMessage(StartStream) && CanEncode(StartStream)
  {
  }

  /** The object. It reads and writes the one stream it holds. */
  class Context {
    var hasRecv: bool
    var recvStarted: bool
    var recvError: Option<Trouble>
    var hasSend: bool
    var sendStarted: bool
    var sendError: Option<Trouble>
    var err: Option<Trouble>
    var meta: Metadata
    const str: Stream
    const known: set<bytes>

    function View(): Ctx
      reads this
    {
      Ctx(hasRecv, recvStarted, recvError, hasSend, sendStarted, sendError, err, meta)
    }

    ghost predicate Valid()
      reads this, str, str.reader
    {
      str.Valid() && At() <= |Source().data|
    }

    /** What there is to read of the stream, and how far it has been read. */
    function Source(): Input
      reads this, str, str.reader
    {
      Incoming(str.View(), str.reader.taken, str.reader.handed, known)
    }

    function At(): nat
      reads str, str.reader
    {
      str.reader.handed
    }

    constructor (str: Stream, known: set<bytes>, c: Ctx)
      requires str.Valid()
      ensures Valid() && this.str == str && this.known == known && View() == c
    {
      this.str, this.known := str, known;
      hasRecv, recvStarted, recvError := c.hasRecv, c.recvStarted, c.recvError;
      hasSend, sendStarted, sendError := c.hasSend, c.sendStarted, c.sendError;
      err, meta := c.err, c.meta;
      new;
      ReadIsRead(str.View(), str.reader.taken, str.reader.handed, 0, known);
    }

    /** Reads of the stream until `target`, and what they returned. */
    method ReadTo(target: nat) returns (bs: bytes)
      requires Valid() && At() <= target <= |Source().data|
      modifies str.reader
      ensures Valid() && At() == target && Source() == old(Source())
      ensures bs == old(Source()).data[old(At())..target]
    {
      hide Incoming, Remains;
      ghost var source := Source();
      bs := [];
      while str.reader.handed < target
        invariant Valid() && At() <= target && Source() == source && old(At()) <= At()
        invariant bs == source.data[old(At())..At()]
        decreases target - At()
      {
        var into := new byte[target - str.reader.handed](_ => 0);
        ghost var e, p := str.View(), At();
        ReadIsRead(e, str.reader.taken, p, into.Length, known);
        var n, error, waits := str.Read(into);
        assert into[..n] == source.data[p..p + n];
        Slices(source.data, old(At()), p, p + n);
        bs := bs + into[..n];
      }
    }

    /** A message of the stream, of the one kind expected if there is one; nothing is taken if it has not all arrived. */
    method NextMessage(expected: Option<nat>) returns (m: Res<Message<Decoded>>)
      requires Valid() && (expected.Some? ==> 1 <= expected.value <= 7)
      modifies str.reader
      ensures Valid() && Source() == old(Source())
      ensures m == if expected.None? then ReadMessage(old(Source()), old(At())) else ReadExpected(expected.value, old(Source()), old(At()))
      ensures At() == if m == Err(WouldBlock, m.pos) then old(At()) else m.pos
    {
      hide Incoming, ReadMessage, ReadExpected;
      var source, at := Source(), At();
      m := if expected.None? then ReadMessage(source, at) else ReadExpected(expected.value, source, at);
      if m.Ok? || m.error != WouldBlock {
        var bs := ReadTo(m.pos);
      }
    }

    /** context.go:153-168. */
    method ReadResponse() returns (result: Result)
      requires Valid()
      modifies this, str.reader
      ensures Valid() && Source() == old(Source())
      ensures var r := TakeResponse(old(View()), old(Source()), old(At()));
        View() == r.ctx && At() == r.pos && result == r.result
    {
      hide Incoming, ReadExpected;
      if err.Some? {
        return Failed(err.value);
      }
      var m := NextMessage(Some(2));
      if m.Err? {
        result := Unreadable(m.error);
        return;
      }
      meta, hasRecv := m.value.meta, m.value.streaming;
      return Answered(m.value);
    }

    /** What is returned, and noted, when a message cannot be read. */
    method Unreadable(e: Error) returns (result: Result)
      modifies this
      ensures var r := Unread(old(View()), 0, e, 0);
        View() == r.ctx && result == r.result
    {
      if e == WouldBlock {
        return Waiting;
      }
      err := Some(Broken(e));
      return Failed(Broken(e));
    }

    /** context.go:36-87. */
    method RecvNext() returns (result: Result)
      requires Valid()
      modifies this, str.reader
      ensures Valid() && Source() == old(Source())
      ensures var r := Recv(old(View()), old(Source()), old(At()));
        View() == r.ctx && At() == r.pos && result == r.result
    {
      hide Incoming, ReadMessage, RecvItem;
      if !hasRecv {
        return Failed(NoStream);
      }
      if err.Some? {
        return Failed(err.value);
      }
      if recvError.Some? {
        return Failed(recvError.value);
      }
      if !recvStarted {
        var m := NextMessage(None);
        if m.Err? {
          result := Unreadable(m.error);
          return;
        }
        if m.value.StartStream? {
          recvStarted := true;
        } else {
          err := Some(Unexpected);
          return Failed(Unexpected);
        }
      }
      result := RecvLoop();
    }

    /** context.go:63-86. */
    method RecvLoop() returns (result: Result)
      requires Valid()
      modifies this, str.reader
      ensures Valid() && Source() == old(Source())
      ensures var r := RecvItem(old(View()), old(Source()), old(At()));
        View() == r.ctx && At() == r.pos && result == r.result
    {
      hide Incoming, ReadMessage, Flat, Remains, NonEmpty;
      ghost var whole := RecvItem(View(), Source(), At());
      ghost var source := Source();
      while true
        invariant Valid() && Source() == source && whole == RecvItem(View(), source, At())
        decreases |source.data| - At()
      {
        var m := NextMessage(None);
        if m.Err? {
          result := Unreadable(m.error);
          return;
        }
        match m.value
        case StreamItem(v) => return Item(v);
        case EndStream =>
          recvError := Some(StreamEnded);
          return Failed(StreamEnded);
        case StreamError(s, meta) =>
          recvError := Some(PeerError(s, meta));
          return Failed(PeerError(s, meta));
        case StreamMetadata(meta) => this.meta := meta;
        case _ =>
          err := Some(Unexpected);
          return Failed(Unexpected);
      }
    }

    /** A Write whose error is kept in the context. */
    method WriteOut(data: bytes, endStream: bool) returns (e: Option<Trouble>)
      requires Valid()
      modifies this, str
      ensures Valid()
      ensures var s := Then(old(View()), WriteCall(old(str.View()), data, endStream));
        View() == s.ctx && str.View() == s.ep && str.sent == old(str.sent) + s.out && e == s.err
    {
      var w := str.Write(data, endStream);
      if w.Some? {
        err := Some(Broken(w.value));
        return err;
      }
      return None;
    }

    /** context.go:89-127. */
    method SendNext(v: Value) returns (e: Option<Trouble>)
      requires Valid() && ReadyMessage(StreamItem(v))
      modifies this, str
      ensures Valid()
      ensures var s := Send(old(View()), old(str.View()), v);
        View() == s.ctx && str.View() == s.ep && str.sent == old(str.sent) + s.out && e == s.err
    {
      hide Wrap, WriteCall, SendItem, ReadyMessage;
      if !hasSend {
        return Some(NoStream);
      }
      if err.Some? {
        return err;
      }
      if sendError.Some? {
        return sendError;
      }
      if !sendStarted {
        assert ReadyMessage(StartStream) && CanEncode(StartStream) by { AlwaysReady(); }
        var start := WrapMessage(StartStream);
        e := WriteOut(start.value, false);
        if e.Some? {
          return;
        }
        sendStarted := true;
      }
      e := SendValue(v);
    }

    /** context.go:116-126. */
    method SendValue(v: Value) returns (e: Option<Trouble>)
      requires Valid() && ReadyMessage(StreamItem(v))
      modifies this, str
      ensures Valid()
      ensures var s := SendItem(old(View()), old(str.View()), v);
        View() == s.ctx && str.View() == s.ep && str.sent == old(str.sent) + s.out && e == s.err
    {
      hide Wrap, WriteCall, Supported, ReadyMessage;
      var enc := WrapMessage(StreamItem(v));
      if enc.None? {
        sendError := Some(NotEncodable);
        return sendError;
      }
      e := WriteOut(enc.value, false);
    }

    /** context.go:129-151. */
    method EndSending() returns (e: Option<Trouble>)
      requires Valid()
      modifies this, str
      ensures Valid()
      ensures var s := EndSend(old(View()), old(str.View()));
        View() == s.ctx && str.View() == s.ep && str.sent == old(str.sent) + s.out && e == s.err
    {
      hide Wrap, WriteCall;
      if !hasSend {
        return Some(NoStream);
      }
      if err.Some? {
        return err;
      }
      if sendError.Some? {
        return sendError;
      }
      var data := WrapMessage(EndStream);
      e := WriteOut(data.value, true);
    }

    /** context.go:170-188. */
    method Respond(m: Message<Value>) returns (e: Option<Trouble>)
      requires Valid() && m.Response? && ReadyMessage(m)
      modifies this, str
      ensures Valid()
      ensures var s := SendResponse(old(View()), old(str.View()), m);
        View() == s.ctx && str.View() == s.ep && str.sent == old(str.sent) + s.out && e == s.err
    {
      hide Wrap, WriteCall;
      var enc := WrapMessage(m);
      if enc.None? {
        return Some(NotEncodable);
      }
      hasSend, sendStarted := m.streaming, false;
      var w := str.Write(enc.value, !m.streaming);
      return if w.Some? then Some(Broken(w.value)) else None;
    }

    /** server.go:266-300. */
    method EmitFailure(status: nat, meta: Metadata)
      requires Valid()
      modifies str, str.reader
      ensures str.Valid()
      ensures var r := EmitError(View(), old(str.View()), status, meta);
        str.View() == r.ep && str.sent == old(str.sent) + r.out
    {
      hide Wrap, WriteCall, ResetCall, Incoming;
      var m := FailureMessage(View(), status, meta);
      FailureReady(View(), status, meta);
      hide FailureMessage, ReadyMessage, CanEncode;
      var enc := WrapMessage(m);
      var w := str.Write(enc.value, true);
      if w.Some? {
        var r := str.Reset(INTERNAL_ERROR);
      }
    }
  }
}
