/**
 * The server's side of a connection (wire/conn.go): a goroutine that reads and dispatches frames,
 * one that writes queued frames out, and the goroutines of the streams' owners, which only queue.
 * A step is what one goroutine does between two points where another can intervene.
 */
module Connections {
  import opened Base
  import opened Streams
  import opened Frames

  const WRITE_QUEUE: nat := 128

  /**
   * A frame to be written. The ticket is the identity of the source's frame pointer, the slot the pooled
   * object (outboundFramePool) that carries it through the queue, once Write has taken one.
   */
  datatype Out = Out(ticket: nat, frame: Typed, slot: Option<nat> := None)

  /** Where the reading goroutine continues after a write: its loop, or the streams still to cancel. */
  datatype Next = Loop | Cancel(todo: set<nat>, code: nat)

  /** The reading goroutine; `fatal` when a failed write makes it terminate the connection. */
  datatype Reader =
    | Ready(next: Next)
    | Holding(received: Frame)
    | Sending(out: Out, next: Next, fatal: bool)
    | Waiting(ticket: nat, next: Next, fatal: bool)
    | Ending
    | Stopped

  /**
   * The writing goroutine: looking for a frame, or about to compare terminateAfter with the frame that
   * the slot of what it wrote - `ticket` - shows by then.
   */
  datatype Writer = Idle | Sent(ticket: nat, slot: Option<nat>)

  /**
   * A registered stream: its endpoint, the packets its calls still have to queue, all they ever made,
   * and the bytes its Reads have returned.
   */
  datatype Line = Line(ep: Endpoint, pending: seq<Packet>, made: seq<Packet>, read: bytes)

  const NewLine: Line := Line(NewEndpoint, [], [], [])

  /**
   * `slots` says which of the connection's frames was last put into a pooled object, if any was since
   * it was last used elsewhere; the pool is shared by all connections and clients. `failed` is c.err
   * being set, `compressing` the compression method being gzip, `broken` a socket that takes no more
   * bytes. The rest is history: the frames on the wire and which of them were
   * compressed, the ids given to ServiceStream, the frames dispatched, whether a dispatched frame made
   * the connection go away, and whether a send on the closed queue panicked.
   */
  datatype Conn = Conn(configured: bool, compressing: bool, running: bool, streams: map<nat, Line>,
                       terminateAfter: Option<nat>, queue: seq<Out>, slots: map<nat, nat>, made: nat, reader: Reader,
                       writer: Writer,
                       failed: bool, broken: bool, wire: seq<Typed>, packed: seq<bool>, serviced: seq<nat>,
                       dispatched: seq<Frame>, violated: bool, panicked: bool)

  const NewConn: Conn :=
    Conn(false, false, true, map[], None, [], map[], 0, Ready(Loop), Idle, false, false, [], [], [], [], false, false)

  const Farewell: Typed := GoAway(0, PROTOCOL_ERROR, [])

  // Dispatch (wire/conn.go:114-309), up to the write each handler ends with.

  function Ask(c: Conn, t: Typed, next: Next, fatal: bool): Conn {
    c.(reader := Sending(Out(c.made, t), next, fatal), made := c.made + 1)
  }

  function Leave(c: Conn): Conn {
    Ask(c, Farewell, Loop, false).(terminateAfter := Some(c.made), violated := true)
  }

  /** The endpoint of stream `id` has moved to `e`. */
  function Moved(c: Conn, id: nat, e: Endpoint): Conn
    requires id in c.streams
  {
    c.(streams := c.streams[id := c.streams[id].(ep := e)])
  }

  function ToStream(c: Conn, id: nat, p: Packet): Conn {
    if id !in c.streams then Ask(c, ResetStream(id, PROTOCOL_ERROR), Loop, false)
    else
      var r := Handle(c.streams[id].ep, p);
      var c' := Moved(c, id, r.ep);
      if r.out == [] then c'.(reader := Ready(Loop)) else Ask(c', OnWire(id, r.out[0]), Loop, false)
  }

  function Process(c: Conn, t: Typed): Conn {
    if t.Hello? then
      if c.configured then Leave(c)
      else Ask(c.(configured := true, compressing := t.gzip), Hello(true, t.gzip, 0), Loop, true)
    else if !c.configured then Leave(c)
    else
      match t
      case Ping(ack, payload) =>
        if ack then c.(reader := Ready(Loop)) else Ask(c, Ping(true, payload), Loop, true)
      case GoAway(_, code, _) => c.(reader := Ready(Cancel(c.streams.Keys, code)))
      case MakeStream(id) =>
        if id in c.streams then Leave(c)
        else c.(streams := c.streams[id := NewLine], serviced := c.serviced + [id], reader := Ready(Loop))
      case ResetStream(id, code) => ToStream(c, id, Packet.Reset(code))
      case DataFrame(id, endData, endStream, payload) => ToStream(c, id, Data(payload, endData, endStream))
  }

  function Dispatch(c: Conn, f: Frame): Conn {
    var c := c.(dispatched := c.dispatched + [f]);
    if f.kind > DATA then Leave(c)
    else
      match FromFrame(f.kind, f)
      case Parsed(t) => Process(c, t)
      case Rejected(_) => Leave(c)
      case Panics => c.(panicked := true)
  }

  /** The reader would have to put a block into a full stream. */
  predicate Blocked(c: Conn, f: Frame) {
    && c.configured && f.kind == DATA && f.streamID in c.streams
    && Full(c.streams[f.streamID].ep, Data(f.payload, false, false))
  }

  // The other steps.

  /** Putting a frame into the queue; the queue is closed once the connection no longer runs. */
  function Enqueue(c: Conn, out: Out): Conn {
    if !c.running then c.(panicked := true) else c.(queue := c.queue + [out])
  }

  predicate Open(c: Conn) { !c.running || |c.queue| < WRITE_QUEUE }

  /** cancelStreams, one stream: its Reset, and the frame that goes with it. */
  function CancelOne(c: Conn, todo: set<nat>, code: nat, id: nat): Conn
    requires id in c.streams
  {
    var r := ResetCall(c.streams[id].ep, code);
    var c' := Moved(c, id, r.ep);
    var next := Cancel(todo - {id}, code);
    if r.out == [] then c'.(reader := Ready(next)) else Ask(c', OnWire(id, r.out[0]), next, false)
  }

  /** The reader is told how the write it waits for went. */
  function Answered(r: Reader, ticket: nat, ok: bool): Reader {
    if r.Waiting? && r.ticket == ticket then
      if !ok && r.fatal then Ending else Ready(r.next)
    else r
  }

  /** The pooled object is not held by a Write that has yet to be answered. */
  predicate Free(c: Conn, slot: nat) {
    && (forall i :: 0 <= i < |c.queue| ==> c.queue[i].slot != Some(slot))
    && (c.reader.Sending? ==> c.reader.out.slot != Some(slot))
  }

  /** The frame that the pooled object shows, if it is one of this connection's. */
  function Shown(c: Conn, slot: Option<nat>): Option<nat> {
    if slot.Some? && slot.value in c.slots then Some(c.slots[slot.value]) else None
  }

  /** The reader's write has failed and it will terminate the connection for it. */
  predicate Quits(c: Conn, ticket: nat, ok: bool) {
    !ok && c.reader.Waiting? && c.reader.ticket == ticket && c.reader.fatal
  }

  function Emit(c: Conn): Conn
    requires c.queue != []
  {
    var out, ok := c.queue[0], c.running && !c.failed && !c.broken;
    c.(queue := c.queue[1..], reader := Answered(c.reader, out.ticket, ok),
       failed := c.failed || (Quits(c, out.ticket, ok) && out.frame.Ping?),
       writer := if ok then Sent(out.ticket, out.slot) else Idle,
       wire := if ok then c.wire + [out.frame] else c.wire,
       packed := if ok then c.packed + [c.compressing] else c.packed)
  }

  /** The reader's Write takes an object from the pool and fills it. */
  function GetOne(c: Conn, slot: nat): Conn
    requires c.reader.Sending?
  {
    c.(reader := Sending(c.reader.out.(slot := Some(slot)), c.reader.next, c.reader.fatal),
       slots := c.slots[slot := c.reader.out.ticket])
  }

  /** The reader's Write sends it on the queue, and waits. */
  function PushOne(c: Conn): Conn
    requires c.reader.Sending?
  {
    Enqueue(c, c.reader.out).(reader := Waiting(c.reader.out.ticket, c.reader.next, c.reader.fatal))
  }

  /** The Write of a stream's owner does both, for the next packet of its calls. */
  function QueueOne(c: Conn, id: nat, slot: nat): Conn
    requires id in c.streams && c.streams[id].pending != []
  {
    var l := c.streams[id];
    Enqueue(c, Out(c.made, OnWire(id, l.pending[0]), Some(slot))).(
      made := c.made + 1, slots := c.slots[slot := c.made], streams := c.streams[id := l.(pending := l.pending[1..])])
  }

  /** The comparison reads the pooled object again, whoever has it by then. */
  function Check(c: Conn): Conn
    requires c.writer.Sent?
  {
    var hit := c.terminateAfter.Some? && Shown(c, c.writer.slot) == c.terminateAfter;
    c.(writer := Idle, running := c.running && !hit)
  }

  /** What the owner of a stream may call. */
  datatype Call = CallWrite(data: bytes, endStream: bool) | CallClose | CallReset(code: nat) | CallRead(n: nat)

  function CallReply(e: Endpoint, call: Call): Reply {
    match call
    case CallWrite(data, endStream) => WriteCall(e, data, endStream)
    case CallClose => CloseCall(e)
    case CallReset(code) => ResetCall(e, code)
    case CallRead(n) => Reply(AfterRead(e, n), [], None)
  }

  /** The bytes that the call returns. */
  function Returned(e: Endpoint, call: Call): bytes {
    if call.CallRead? && ReadOutcome(e, call.n).Got? then ReadOutcome(e, call.n).bs else []
  }

  /** The call changes the endpoint and leaves its packets to be queued, behind those of earlier calls. */
  function Called(l: Line, call: Call): Line {
    var r := CallReply(l.ep, call);
    Line(r.ep, l.pending + r.out, l.made + r.out, l.read + Returned(l.ep, call))
  }

  /**
   * What can happen next. A Write takes any free object from the pool; the reader's takes it (Get)
   * and sends it on the queue (Push) in two steps. The owners of the streams may call anything on a
   * registered stream at any time (Invoke); each stream queues the packets of its calls one by one, in
   * order (Queue), between any steps of the others. Borrow is a Write that takes an object and has not
   * queued it, or queues it elsewhere: of another connection, or of a client.
   */
  datatype Step =
    | Receive(f: Frame)
    | DoDispatch
    | Get(slot: nat)
    | Push
    | CancelStream(id: nat)
    | CancelDone
    | ReadFails
    | Terminate
    | Exit
    | DoEmit
    | DoCheck
    | Queue(id: nat, slot: nat)
    | Borrow(slot: nat)
    | Invoke(id: nat, call: Call)
    | Break

  predicate Enabled(c: Conn, s: Step) {
    && !c.panicked
    && match s
      case Receive(f) => c.reader == Ready(Loop) && c.running && Measured(f) && Carriable(f)
      case DoDispatch => c.reader.Holding? && !Blocked(c, c.reader.received)
      case Get(slot) => c.reader.Sending? && c.reader.out.slot == None && Free(c, slot)
      case Push => c.reader.Sending? && c.reader.out.slot.Some? && Open(c)
      case CancelStream(id) => c.reader.Ready? && c.reader.next.Cancel? && id in c.reader.next.todo && id in c.streams
      case CancelDone => c.reader.Ready? && c.reader.next.Cancel? && c.reader.next.todo == {}
      case ReadFails => c.reader == Ready(Loop)
      case Terminate => c.reader.Ending?
      case Exit => c.reader == Ready(Loop) && !c.running
      case DoEmit => c.writer.Idle? && c.queue != []
      case DoCheck => c.writer.Sent?
      case Queue(id, slot) => Open(c) && id in c.streams && c.streams[id].pending != [] && Free(c, slot)
      case Borrow(slot) => Free(c, slot)
      case Invoke(id, call) => id in c.streams && (call.CallReset? ==> call.code < TWO_32)
      case Break => true
  }

  function After(c: Conn, s: Step): Conn
    requires Enabled(c, s)
  {
    match s
    case Receive(f) => c.(reader := Holding(f))
    case DoDispatch => Dispatch(c, c.reader.received)
    case Get(slot) => GetOne(c, slot)
    case Push => PushOne(c)
    case CancelStream(id) => CancelOne(c, c.reader.next.todo, c.reader.next.code, id)
    case CancelDone => c.(reader := Ending)
    case ReadFails => c.(failed := true, reader := Ending)
    case Terminate => c.(running := false, reader := Stopped)
    case Exit => c.(reader := Stopped)
    case DoEmit => Emit(c)
    case DoCheck => Check(c)
    case Queue(id, slot) => QueueOne(c, id, slot)
    case Borrow(slot) => c.(slots := c.slots - {slot})
    case Invoke(id, call) => c.(streams := c.streams[id := Called(c.streams[id], call)])
    case Break => c.(broken := true)
  }

  lemma AfterGet(c: Conn, slot: nat)
    requires Enabled(c, Get(slot))
    ensures After(c, Get(slot)) ==
      c.(reader := Sending(c.reader.out.(slot := Some(slot)), c.reader.next, c.reader.fatal),
         slots := c.slots[slot := c.reader.out.ticket])
  {
    hide Free, Enqueue, Emit, Check, Dispatch, CancelOne, OnWire, Called, Shown, Blocked;
  }

  lemma AfterPush(c: Conn)
    requires Enabled(c, Push)
    ensures After(c, Push) ==
      Enqueue(c, c.reader.out).(reader := Waiting(c.reader.out.ticket, c.reader.next, c.reader.fatal))
  {
    hide Free, Enqueue, Emit, Check, Dispatch, CancelOne, OnWire, Called, Shown, Blocked;
  }

  lemma AfterQueue(c: Conn, id: nat, slot: nat)
    requires Enabled(c, Step.Queue(id, slot))
    ensures var l := c.streams[id];
      After(c, Step.Queue(id, slot)) == Enqueue(c, Out(c.made, OnWire(id, l.pending[0]), Some(slot))).(
        made := c.made + 1, slots := c.slots[slot := c.made], streams := c.streams[id := l.(pending := l.pending[1..])])
  {
    hide Free, Enqueue, Emit, Check, Dispatch, CancelOne, OnWire, Called, Shown, Blocked;
  }

  lemma AfterEmit(c: Conn)
    requires Enabled(c, DoEmit)
    ensures After(c, DoEmit) == Emit(c) && c.queue != [] && c.writer.Idle?
  {
    hide Free, Enqueue, Emit, Check, Dispatch, CancelOne, OnWire, Called, Shown, Blocked;
  }

  lemma AfterCheck(c: Conn)
    requires Enabled(c, DoCheck)
    ensures After(c, DoCheck) == Check(c) && c.writer.Sent?
  {
    hide Free, Enqueue, Emit, Check, Dispatch, CancelOne, OnWire, Called, Shown, Blocked;
  }

  /** What the steps of the writer and the owners change, and no more. */
  lemma Touches(c: Conn, id: nat, slot: nat)
    ensures c.queue != [] ==>
      var d := Emit(c);
      d == c.(queue := d.queue, failed := d.failed, reader := d.reader, wire := d.wire, packed := d.packed, writer := d.writer)
    ensures c.writer.Sent? ==>
      var d := Check(c);
      d == c.(running := d.running, writer := d.writer)
    ensures id in c.streams && c.streams[id].pending != [] ==>
      var d := QueueOne(c, id, slot);
      d == c.(slots := d.slots, queue := d.queue, panicked := d.panicked, made := d.made, streams := d.streams)
  {
    hide OnWire, Shown, Answered;
  }

  /** A step that is not enabled does not happen. */
  function Run(c: Conn, steps: seq<Step>): Conn
    decreases |steps|
  {
    if steps == [] then c
    else Run(if Enabled(c, steps[0]) then After(c, steps[0]) else c, steps[1..])
  }

  // The object: one method for each handler, and one for each iteration of the two service loops.

  class Connection {
    var configured: bool
    var compressing: bool
    var running: bool
    var streams: map<nat, Line>
    var terminateAfter: Option<nat>
    var toWrite: seq<Out>
    var slots: map<nat, nat>
    var made: nat
    var failed: bool
    var reader: Reader
    var writer: Writer
    var io: seq<Typed>
    var packed: seq<bool>
    var broken: bool
    var serviced: seq<nat>
    ghost var dispatched: seq<Frame>
    ghost var violated: bool
    var panicked: bool

    ghost function View(): Conn
      reads this
    {
      Conn(configured, compressing, running, streams, terminateAfter, toWrite, slots, made, reader, writer, failed,
           broken, io, packed, serviced, dispatched, violated, panicked)
    }

    constructor ()
      ensures View() == NewConn
    {
      configured, compressing, running, streams, terminateAfter := false, false, true, map[], None;
      toWrite, slots, made, failed, broken, panicked := [], map[], 0, false, false, false;
      reader, writer, io, packed, serviced := Ready(Loop), Idle, [], [], [];
      dispatched, violated := [], false;
    }

    /** wire/conn.go:311-319, as far as the send; `Push` is the send itself. */
    method Write(t: Typed, next: Next, fatal: bool)
      modifies this
      ensures View() == Ask(old(View()), t, next, fatal)
    {
      reader := Sending(Out(made, t), next, fatal);
      made := made + 1;
    }

    /** wire/conn.go:321-337, as every handler calls it. */
    method GoAwayNow()
      modifies this
      ensures View() == Leave(old(View()))
    {
      terminateAfter := Some(made);
      violated := true;
      Write(Farewell, Loop, false);
    }

    method HandleHello(gzip: bool)
      modifies this
      ensures forall ack, n :: View() == Process(old(View()), Hello(ack, gzip, n))
    {
      if configured {
        GoAwayNow();
        return;
      }
      compressing := gzip;
      configured := true;
      Write(Hello(true, gzip, 0), Loop, true);
    }

    method HandlePing(ack: bool, payload: bytes)
      modifies this
      ensures View() == Process(old(View()), Ping(ack, payload))
    {
      if !configured {
        GoAwayNow();
        return;
      }
      if ack {
        reader := Ready(Loop);
        return;
      }
      Write(Ping(true, payload), Loop, true);
    }

    method HandleGoAway(code: nat)
      modifies this
      ensures forall last, extra :: View() == Process(old(View()), GoAway(last, code, extra))
    {
      if !configured {
        GoAwayNow();
        return;
      }
      reader := Ready(Cancel(streams.Keys, code));
    }

    method HandleMakeStream(id: nat)
      modifies this
      ensures View() == Process(old(View()), MakeStream(id))
    {
      if !configured {
        GoAwayNow();
        return;
      }
      if id in streams {
        GoAwayNow();
        return;
      }
      streams := streams[id := NewLine];
      serviced := serviced + [id];
      reader := Ready(Loop);
    }

    /** The common end of handleResetFrame and handleData. */
    method Forward(id: nat, p: Packet)
      modifies this
      ensures View() == ToStream(old(View()), id, p)
    {
      if id !in streams {
        Write(ResetStream(id, PROTOCOL_ERROR), Loop, false);
        return;
      }
      var r := Handle(streams[id].ep, p);
      streams := streams[id := streams[id].(ep := r.ep)];
      if r.out == [] {
        reader := Ready(Loop);
      } else {
        Write(OnWire(id, r.out[0]), Loop, false);
      }
    }

    method HandleResetFrame(id: nat, code: nat)
      modifies this
      ensures View() == Process(old(View()), ResetStream(id, code))
    {
      hide ToStream, Leave;
      if !configured {
        GoAwayNow();
        return;
      }
      Forward(id, Packet.Reset(code));
    }

    method HandleData(id: nat, endData: bool, endStream: bool, payload: bytes)
      modifies this
      ensures View() == Process(old(View()), DataFrame(id, endData, endStream, payload))
    {
      hide ToStream, Leave;
      if !configured {
        GoAwayNow();
        return;
      }
      Forward(id, Data(payload, endData, endStream));
    }

    /** wire/conn.go:114-168. */
    method DispatchFrame(f: Frame)
      modifies this
      ensures View() == Dispatch(old(View()), f)
    {
      hide Process, FromFrame, Ask;
      dispatched := dispatched + [f];
      if f.kind > DATA {
        GoAwayNow();
        return;
      }
      match FromFrame(f.kind, f)
      case Rejected(_) => GoAwayNow();
      case Panics => panicked := true;
      case Parsed(t) =>
        match t
        case Hello(_, gzip, _) => HandleHello(gzip);
        case Ping(ack, payload) => HandlePing(ack, payload);
        case GoAway(_, code, _) => HandleGoAway(code);
        case MakeStream(id) => HandleMakeStream(id);
        case ResetStream(id, code) => HandleResetFrame(id, code);
        case DataFrame(id, endData, endStream, payload) => HandleData(id, endData, endStream, payload);
    }

    /** wire/conn.go:67-79. */
    method Terminate()
      modifies this`running
      ensures View() == old(View()).(running := false)
    {
      if !running {
        return;
      }
      running := false;
    }

    /** wire/conn.go:312-316: an object from the pool, filled. */
    method GetSlot(slot: nat)
      requires reader.Sending? && reader.out.slot == None
      modifies this
      ensures View() == GetOne(old(View()), slot)
    {
      slots := slots[slot := reader.out.ticket];
      reader := Sending(reader.out.(slot := Some(slot)), reader.next, reader.fatal);
    }

    /** The send on the queue that a Write waits to make. */
    method PushFrame()
      requires reader.Sending?
      modifies this
      ensures View() == PushOne(old(View()))
    {
      var s := reader;
      if running {
        toWrite := toWrite + [s.out];
      } else {
        panicked := true;
      }
      reader := Waiting(s.out.ticket, s.next, s.fatal);
    }

    /** One packet of a stream's calls, sent on the queue (wire/stream.go:73-77, wire/conn.go:312-317). */
    method QueueNext(id: nat, slot: nat)
      requires id in streams && streams[id].pending != []
      modifies this`slots, this`toWrite, this`panicked, this`made, this`streams
      ensures var d := QueueOne(old(View()), id, slot);
        slots == d.slots && toWrite == d.queue && panicked == d.panicked && made == d.made && streams == d.streams
    {
      var l := streams[id];
      var out := Out(made, OnWire(id, l.pending[0]), Some(slot));
      hide OnWire;
      slots := slots[slot := made];
      if running {
        toWrite := toWrite + [out];
      } else {
        panicked := true;
      }
      made := made + 1;
      streams := streams[id := l.(pending := l.pending[1..])];
    }

    /** wire/conn.go:227-239: one iteration, for the stream that the map yields. */
    method CancelNext(id: nat)
      requires id in streams && reader.Ready? && reader.next.Cancel?
      modifies this
      ensures View() == CancelOne(old(View()), old(reader.next.todo), old(reader.next.code), id)
    {
      var todo, code := reader.next.todo - {id}, reader.next.code;
      var r := ResetCall(streams[id].ep, code);
      streams := streams[id := streams[id].(ep := r.ep)];
      if r.out == [] {
        reader := Ready(Cancel(todo, code));
      } else {
        Write(OnWire(id, r.out[0]), Cancel(todo, code), false);
      }
    }

    /** wire/conn.go:82-94: one iteration of serviceWrites, up to the result. */
    method ServiceWrite()
      requires toWrite != [] && writer.Idle?
      modifies this`toWrite, this`failed, this`reader, this`io, this`packed, this`writer
      ensures var d := Emit(old(View()));
        && toWrite == d.queue && failed == d.failed && reader == d.reader
        && io == d.wire && packed == d.packed && writer == d.writer
    {
      var out := toWrite[0];
      toWrite := toWrite[1..];
      if failed || broken || !running {
        failed := failed || (reader.Waiting? && reader.ticket == out.ticket && reader.fatal && out.frame.Ping?);
        reader := Answered(reader, out.ticket, false);
        return;
      }
      hide Answered;
      io := io + [out.frame];
      packed := packed + [compressing];
      reader := Answered(reader, out.ticket, true);
      writer := Sent(out.ticket, out.slot);
    }

    /** wire/conn.go:96-98: the rest of the iteration. */
    method CompareWritten()
      requires writer.Sent?
      modifies this`running, this`writer
      ensures var d := Check(old(View())); running == d.running && writer == d.writer
    {
      var now := if writer.slot.Some? && writer.slot.value in slots then Some(slots[writer.slot.value]) else None;
      if terminateAfter.Some? && now == terminateAfter {
        Terminate();
      }
      writer := Idle;
    }

    /** wire/conn.go:105-108: a failed read. */
    method ReadFailed()
      requires reader == Ready(Loop)
      modifies this
      ensures View() == old(View()).(failed := true, running := false, reader := Stopped)
    {
      failed := true;
      Terminate();
      reader := Stopped;
    }
  }
}
