/** What holds of a connection in every run, however its goroutines interleave and whatever the peer sends. */
module Handshake {
  import opened Base
  import opened Streams
  import opened Frames
  import opened Connections

  // The shutdown.

  predicate Says(c: Conn, t: Typed) { c.wire != [] && c.wire[|c.wire| - 1] == t }

  predicate Tickets(c: Conn) {
    && (forall i :: 0 <= i < |c.queue| ==> c.queue[i].ticket < c.made)
    && (c.reader.Sending? ==> c.reader.out.ticket < c.made)
    && (c.reader.Waiting? ==> c.reader.ticket < c.made)
    && (c.writer.Sent? ==> c.writer.ticket < c.made)
    && (c.terminateAfter.Some? ==> c.terminateAfter.value < c.made)
  }

  /** The frame that the reader is about to queue is neither queued nor written. */
  predicate Apart(c: Conn) {
    c.reader.Sending? ==>
      && (forall i :: 0 <= i < |c.queue| ==> c.queue[i].ticket != c.reader.out.ticket)
      && (c.writer.Sent? ==> c.writer.ticket != c.reader.out.ticket)
  }

  /** A pooled object that a Write holds shows the frame that was put into it. */
  predicate InUse(c: Conn) {
    && (forall i :: 0 <= i < |c.queue| ==> Shown(c, c.queue[i].slot) == Some(c.queue[i].ticket))
    && (c.reader.Sending? && c.reader.out.slot.Some? ==> Shown(c, c.reader.out.slot) == Some(c.reader.out.ticket))
  }

  /** What holds whatever becomes of the pooled objects. */
  predicate Sane(c: Conn) {
    && Tickets(c) && Apart(c) && InUse(c)
    && (c.terminateAfter.Some? ==> c.violated)
    && (c.reader.Holding? ==> Measured(c.reader.received) && Carriable(c.reader.received))
    && (c.panicked ==> !c.running)
  }

  /** Whatever carries the ticket that terminates the connection is the farewell. */
  predicate Marked(c: Conn) {
    && (forall i :: 0 <= i < |c.queue| && c.terminateAfter == Some(c.queue[i].ticket) ==> c.queue[i].frame == Farewell)
    && (c.reader.Sending? && c.terminateAfter == Some(c.reader.out.ticket) ==> c.reader.out.frame == Farewell)
    && (c.writer.Sent? && c.terminateAfter == Some(c.writer.ticket) ==> Says(c, Farewell))
  }

  predicate Queued(c: Conn, ticket: nat) { exists i :: 0 <= i < |c.queue| && c.queue[i].ticket == ticket }

  predicate Wrote(c: Conn, ticket: nat) { c.writer.Sent? && c.writer.ticket == ticket }

  /** A farewell is on its way: about to be queued, queued, or written and about to take effect. */
  predicate Doomed(c: Conn) {
    && c.terminateAfter.Some?
    && var t := c.terminateAfter.value;
      || (c.reader.Sending? && c.reader.out.ticket == t)
      || (c.reader.Waiting? && c.reader.ticket == t && Queued(c, t))
      || Wrote(c, t)
  }

  predicate Shutdown(c: Conn) {
    && (c.failed ==> c.reader.Ending? || c.reader.Stopped?)
    && (!c.running && !c.reader.Stopped? ==> c.violated)
    && (c.violated && c.running && !c.broken ==> Doomed(c))
    && (c.violated && !c.running && !c.broken ==> Says(c, Farewell))
  }

  /** The object that the writer is about to look at still shows what was written. */
  predicate Kept(c: Conn) { c.writer.Sent? ==> Shown(c, c.writer.slot) == Some(c.writer.ticket) }

  /** `spared`: no pooled object was taken between the writing of its frame and the comparison. */
  predicate Orderly(c: Conn, spared: bool) {
    Sane(c) && (spared ==> Marked(c) && Shutdown(c) && Kept(c))
  }

  /** The pooled object that the step takes, if any. */
  function Taken(s: Step): Option<nat> {
    match s
    case Get(slot) => Some(slot)
    case Queue(_, slot) => Some(slot)
    case Borrow(slot) => Some(slot)
    case _ => None
  }

  /** The step does not take the object that the writer is about to look at. */
  predicate Spares(c: Conn, s: Step) { c.writer.Sent? && Taken(s).Some? ==> Taken(s) != c.writer.slot }

  lemma MeasuredParses(f: Frame)
    requires Measured(f) && f.kind <= DATA
    ensures !FromFrame(f.kind, f).Panics?
  {
  }

  lemma AskOrderly(c: Conn, t: Typed, next: Next, fatal: bool, b: bool)
    requires Orderly(c, b) && (c.reader.Holding? || c.reader.Ready?)
    ensures Orderly(Ask(c, t, next, fatal), b)
  {
  }

  lemma LeaveOrderly(c: Conn, b: bool)
    requires Orderly(c, b) && c.reader.Holding?
    ensures Orderly(Leave(c), b)
  {
  }

  lemma RestOrderly(c: Conn, next: Next, b: bool)
    requires Orderly(c, b) && c.reader.Holding?
    ensures Orderly(c.(reader := Ready(next)), b)
  {
  }

  /** Orderly does not look at what dispatch changes besides the reader. */
  lemma Unseen(c: Conn, configured: bool, streams: map<nat, Line>, serviced: seq<nat>, dispatched: seq<Frame>, b: bool)
    requires Orderly(c, b)
    ensures Orderly(c.(configured := configured, streams := streams, serviced := serviced, dispatched := dispatched), b)
  {
  }

  lemma GreetOrderly(c: Conn, gzip: bool, b: bool)
    requires Orderly(c, b)
    ensures Orderly(c.(configured := true, compressing := gzip), b)
  {
  }

  lemma ToStreamOrderly(c: Conn, id: nat, p: Packet, b: bool)
    requires Orderly(c, b) && c.reader.Holding?
    ensures Orderly(ToStream(c, id, p), b)
  {
    hide Orderly, Ask, Handle;
    if id !in c.streams {
      AskOrderly(c, ResetStream(id, PROTOCOL_ERROR), Loop, false, b);
    } else {
      var r := Handle(c.streams[id].ep, p);
      var c' := Moved(c, id, r.ep);
      Unseen(c, c.configured, c'.streams, c.serviced, c.dispatched, b);
      RestOrderly(c', Loop, b);
      if r.out != [] {
        AskOrderly(c', OnWire(id, r.out[0]), Loop, false, b);
      }
    }
  }

  lemma ProcessOrderly(c: Conn, t: Typed, b: bool)
    requires Orderly(c, b) && c.reader.Holding?
    ensures Orderly(Process(c, t), b)
  {
    hide Orderly, Ask, Leave, ToStream;
    LeaveOrderly(c, b);
    if t.Hello? {
      GreetOrderly(c, t.gzip, b);
      AskOrderly(c.(configured := true, compressing := t.gzip), Hello(true, t.gzip, 0), Loop, true, b);
    } else {
      match t
      case Ping(_, payload) =>
        RestOrderly(c, Loop, b);
        AskOrderly(c, Ping(true, payload), Loop, true, b);
      case GoAway(_, code, _) => RestOrderly(c, Cancel(c.streams.Keys, code), b);
      case MakeStream(id) =>
        Unseen(c, c.configured, c.streams[id := NewLine], c.serviced + [id], c.dispatched, b);
        RestOrderly(c.(streams := c.streams[id := NewLine], serviced := c.serviced + [id]), Loop, b);
      case ResetStream(id, code) => ToStreamOrderly(c, id, Packet.Reset(code), b);
      case DataFrame(id, endData, endStream, payload) => ToStreamOrderly(c, id, Data(payload, endData, endStream), b);
    }
  }

  lemma DispatchOrderly(c: Conn, b: bool)
    requires Orderly(c, b) && c.reader.Holding?
    ensures Orderly(Dispatch(c, c.reader.received), b)
  {
    var f := c.reader.received;
    assert Measured(f);
    hide Orderly, Leave, Process, FromFrame;
    var c' := c.(dispatched := c.dispatched + [f]);
    Unseen(c, c.configured, c.streams, c.serviced, c.dispatched + [f], b);
    LeaveOrderly(c', b);
    if f.kind <= DATA {
      MeasuredParses(f);
      if FromFrame(f.kind, f).Parsed? {
        ProcessOrderly(c', FromFrame(f.kind, f).typed, b);
      }
    }
  }

  lemma PushOrderly(c: Conn, b: bool)
    requires Orderly(c, b) && Enabled(c, Push)
    ensures Orderly(After(c, Push), b)
  {
    AfterPush(c);
    hide After;
    var d := After(c, Push);
    if c.running {
      assert d.queue[|c.queue|] == c.reader.out;
      assert forall i :: 0 <= i < |c.queue| ==> d.queue[i] == c.queue[i];
    }
  }

  lemma EmitSane(c: Conn)
    requires Sane(c) && c.queue != [] && c.writer.Idle?
    ensures Sane(Emit(c))
  {
    var d := Emit(c);
    assert forall i :: 0 <= i < |d.queue| ==> d.queue[i] == c.queue[i + 1];
  }

  lemma EmitStrict(c: Conn)
    requires Sane(c) && Marked(c) && Shutdown(c) && Kept(c) && c.queue != [] && c.writer.Idle?
    ensures Marked(Emit(c)) && Shutdown(Emit(c)) && Kept(Emit(c))
  {
    var d := Emit(c);
    assert forall i :: 0 <= i < |d.queue| ==> d.queue[i] == c.queue[i + 1];
    assert Shown(c, c.queue[0].slot) == Some(c.queue[0].ticket);
    hide Apart, InUse;
    if Doomed(c) && c.reader.Waiting? && Queued(c, c.reader.ticket) {
      var i :| 0 <= i < |c.queue| && c.queue[i].ticket == c.reader.ticket;
      assert i > 0 ==> d.queue[i - 1].ticket == c.reader.ticket;
    }
  }

  lemma EmitOrderly(c: Conn, b: bool)
    requires Orderly(c, b) && Enabled(c, DoEmit)
    ensures Orderly(After(c, DoEmit), b)
  {
    AfterEmit(c);
    EmitSane(c);
    if b {
      EmitStrict(c);
    }
    hide After, Enabled, Emit, Sane, Marked, Shutdown, Kept;
  }

  /** A frame of an owner's is queued in `slot`, or the queue is closed. */
  predicate Appended(c: Conn, d: Conn, slot: nat) {
    && d == c.(queue := d.queue, slots := c.slots[slot := c.made], made := c.made + 1, streams := d.streams, panicked := d.panicked)
    && (if c.running then |d.queue| == |c.queue| + 1 && d.queue[..|c.queue|] == c.queue
          && d.queue[|c.queue|].ticket == c.made && d.queue[|c.queue|].slot == Some(slot) && d.panicked == c.panicked
        else d.queue == c.queue)
  }

  lemma QueueAppends(c: Conn, id: nat, slot: nat)
    requires Enabled(c, Step.Queue(id, slot))
    ensures Appended(c, After(c, Step.Queue(id, slot)), slot)
  {
    AfterQueue(c, id, slot);
    hide After, OnWire, Free;
  }

  lemma AppendedSane(c: Conn, d: Conn, slot: nat)
    requires Sane(c) && Free(c, slot) && Appended(c, d, slot)
    ensures Sane(d)
  {
    if c.running {
      assert forall i :: 0 <= i < |c.queue| ==> d.queue[i] == d.queue[..|c.queue|][i];
    }
  }

  lemma AppendedStrict(c: Conn, d: Conn, slot: nat)
    requires Sane(c) && Marked(c) && Shutdown(c) && Kept(c) && Appended(c, d, slot)
    requires c.writer.Sent? ==> c.writer.slot != Some(slot)
    ensures Marked(d) && Shutdown(d) && Kept(d)
  {
    hide Apart, InUse;
    if c.running {
      assert forall i :: 0 <= i < |c.queue| ==> d.queue[i] == d.queue[..|c.queue|][i];
      if c.reader.Waiting? && Queued(c, c.reader.ticket) {
        var i :| 0 <= i < |c.queue| && c.queue[i].ticket == c.reader.ticket;
        assert d.queue[i].ticket == c.reader.ticket;
      }
    }
  }

  lemma QueueOrderly(c: Conn, id: nat, slot: nat, b: bool)
    requires Orderly(c, b) && Enabled(c, Step.Queue(id, slot)) && (b ==> Spares(c, Step.Queue(id, slot)))
    ensures Orderly(After(c, Step.Queue(id, slot)), b)
  {
    QueueAppends(c, id, slot);
    var d := After(c, Step.Queue(id, slot));
    AppendedSane(c, d, slot);
    if b {
      AppendedStrict(c, d, slot);
    }
    hide After, Sane, Marked, Shutdown, Kept, Appended;
  }

  lemma GetOrderly(c: Conn, slot: nat, b: bool)
    requires Orderly(c, b) && Enabled(c, Get(slot)) && (b ==> Spares(c, Get(slot)))
    ensures Orderly(After(c, Get(slot)), b)
  {
    AfterGet(c, slot);
    hide After;
  }

  lemma BorrowOrderly(c: Conn, slot: nat, b: bool)
    requires Orderly(c, b) && Enabled(c, Borrow(slot)) && (b ==> Spares(c, Borrow(slot)))
    ensures Orderly(After(c, Borrow(slot)), b)
  {
    assert After(c, Borrow(slot)) == c.(slots := c.slots - {slot});
    hide After;
  }

  lemma StepOrderly(c: Conn, s: Step, b: bool)
    requires Orderly(c, b) && Enabled(c, s) && (b ==> Spares(c, s))
    ensures Orderly(After(c, s), b)
  {
    hide Orderly, Spares;
    match s
    case DoDispatch => DispatchOrderly(c, b);
    case Get(slot) => GetOrderly(c, slot, b);
    case Push => PushOrderly(c, b);
    case CancelStream(id) => CancelOrderly(c, id, b);
    case DoEmit => EmitOrderly(c, b);
    case Queue(id, slot) => QueueOrderly(c, id, slot, b);
    case Borrow(slot) => BorrowOrderly(c, slot, b);
    case DoCheck => CheckOrderly(c, b);
    case Invoke(id, call) => Unseen(c, c.configured, After(c, s).streams, c.serviced, c.dispatched, b);
    case _ => SimpleOrderly(c, s, b);
  }

  lemma CheckOrderly(c: Conn, b: bool)
    requires Orderly(c, b) && Enabled(c, DoCheck)
    ensures Orderly(After(c, DoCheck), b)
  {
    AfterCheck(c);
    hide After, Enabled;
  }

  lemma SimpleOrderly(c: Conn, s: Step, b: bool)
    requires Orderly(c, b) && Enabled(c, s)
    requires s.Receive? || s.CancelDone? || s.ReadFails? || s.Terminate? || s.Exit? || s.Break?
    ensures Orderly(After(c, s), b)
  {
    hide OnWire, Dispatch, CancelOne, Called, Emit, Check, Enqueue, Free;
  }

  lemma CancelOrderly(c: Conn, id: nat, b: bool)
    requires Orderly(c, b) && Enabled(c, CancelStream(id))
    ensures Orderly(After(c, CancelStream(id)), b)
  {
    hide Orderly, Ask, ResetCall;
    var code := c.reader.next.code;
    var r, next := ResetCall(c.streams[id].ep, code), Cancel(c.reader.next.todo - {id}, code);
    var c' := Moved(c, id, r.ep);
    Unseen(c, c.configured, c'.streams, c.serviced, c.dispatched, b);
    if r.out == [] {
      StillReady(c', next, b);
    } else {
      AskOrderly(c', OnWire(id, r.out[0]), next, false, b);
    }
  }

  lemma StillReady(c: Conn, next: Next, b: bool)
    requires Orderly(c, b) && c.reader.Ready?
    ensures Orderly(c.(reader := Ready(next)), b)
  {
  }

  // What a frame does to the connection.

  predicate Accepts(f: Frame) { f.kind <= DATA && FromFrame(f.kind, f).Parsed? }

  /** The frames the connection will not take: ill-formed, out of order, or about an id in use. */
  predicate Violates(c: Conn, f: Frame) {
    || !Accepts(f)
    || (f.kind == HELLO <==> c.configured)
    || (f.kind == MAKE_STREAM && f.streamID in c.streams)
  }

  lemma ParsedKind(f: Frame)
    requires Accepts(f)
    ensures var t := FromFrame(f.kind, f).typed;
      && KindOf(t) == f.kind
      && (t.MakeStream? ==> t.id == f.streamID && t.id != 0)
  {
  }

  /**
   * What handling a frame does besides moving the reader: whether it was `bad`, greeted with `hello`,
   * or registered an id. Everything else is untouched, and a HELLO or a GOAWAY is only sent accordingly.
   */
  ghost predicate Effects(c: Conn, d: Conn, bad: bool, hello: bool, made: Option<nat>) {
    && d.wire == c.wire && d.queue == c.queue && d.running == c.running && d.dispatched == c.dispatched
    && d.failed == c.failed && d.broken == c.broken && d.packed == c.packed
    && d.panicked == c.panicked && d.writer == c.writer && d.slots == c.slots
    && (if hello then d.reader.Sending? && d.reader.out.frame == Hello(true, d.compressing, 0)
        else d.compressing == c.compressing)
    && (d.reader.Sending? && d.reader.out.frame.Hello? ==> hello)
    && (d.reader.Sending? && d.reader.out.frame.GoAway? ==> bad)
    && (d.reader.Sending? ==> !d.reader.out.frame.DataFrame?)
    && d.violated == (c.violated || bad)
    && d.configured == (c.configured || hello)
    && d.serviced == c.serviced + (if made.Some? then [made.value] else [])
    && d.streams.Keys == c.streams.Keys + (if made.Some? then {made.value} else {})
  }

  lemma LeaveEffects(c: Conn)
    ensures Effects(c, Leave(c), true, false, None)
  {
  }

  lemma HelloEffects(c: Conn, gzip: bool)
    ensures Effects(c, Ask(c.(configured := true, compressing := gzip), Hello(true, gzip, 0), Loop, true),
                    false, true, None)
  {
  }

  lemma AskEffects(c: Conn, t: Typed, next: Next, fatal: bool)
    requires !t.Hello? && !t.GoAway? && !t.DataFrame?
    ensures Effects(c, Ask(c, t, next, fatal), false, false, None)
  {
  }

  lemma RestEffects(c: Conn, next: Next)
    ensures Effects(c, c.(reader := Ready(next)), false, false, None)
  {
  }

  lemma MakeEffects(c: Conn, id: nat)
    ensures Effects(c, c.(streams := c.streams[id := NewLine], serviced := c.serviced + [id], reader := Ready(Loop)),
                    false, false, Some(id))
  {
  }

  /** Changing one stream's endpoint first makes no difference. */
  lemma EndpointEffects(c: Conn, id: nat, e: Endpoint, d: Conn)
    requires id in c.streams && Effects(Moved(c, id, e), d, false, false, None)
    ensures Effects(c, d, false, false, None)
  {
  }

  lemma StreamFrame(id: nat, p: Packet)
    ensures !OnWire(id, p).Hello? && !OnWire(id, p).GoAway? && !OnWire(id, p).Ping?
    ensures OnWire(id, p).DataFrame? <==> p.Data?
  {
  }

  /** What a stream answers to a frame, and says when it is reset, is RESET_STREAM. */
  lemma RepliesReset(e: Endpoint, p: Packet, code: nat)
    ensures Handle(e, p).out != [] ==> Handle(e, p).out[0] == Packet.Reset(STREAM_CLOSED)
    ensures ResetCall(e, code).out != [] ==> ResetCall(e, code).out[0] == Packet.Reset(code)
  {
  }

  /** A stream's reply to a frame, as ToStream and CancelOne send it. */
  lemma ReplyEffects(c: Conn, id: nat, r: Reply, next: Next)
    requires id in c.streams && (r.out != [] ==> r.out[0].Reset?)
    ensures var c' := Moved(c, id, r.ep);
      Effects(c, if r.out == [] then c'.(reader := Ready(next)) else Ask(c', OnWire(id, r.out[0]), next, false),
              false, false, None)
  {
    hide Effects, OnWire, Ask;
    var c' := Moved(c, id, r.ep);
    if r.out == [] {
      RestEffects(c', next);
      EndpointEffects(c, id, r.ep, c'.(reader := Ready(next)));
    } else {
      var t := OnWire(id, r.out[0]);
      StreamFrame(id, r.out[0]);
      AskEffects(c', t, next, false);
      EndpointEffects(c, id, r.ep, Ask(c', t, next, false));
    }
  }

  lemma ToStreamEffects(c: Conn, id: nat, p: Packet)
    ensures Effects(c, ToStream(c, id, p), false, false, None)
  {
    hide Effects, Ask, OnWire;
    if id in c.streams {
      RepliesReset(c.streams[id].ep, p, 0);
      hide Handle;
      ReplyEffects(c, id, Handle(c.streams[id].ep, p), Loop);
    } else {
      AskEffects(c, ResetStream(id, PROTOCOL_ERROR), Loop, false);
    }
  }

  lemma ProcessEffects(c: Conn, t: Typed)
    ensures var bad := (t.Hello? <==> c.configured) || (t.MakeStream? && t.id in c.streams);
      Effects(c, Process(c, t), bad, !bad && t.Hello?, if !bad && t.MakeStream? then Some(t.id) else None)
  {
    hide Effects, ToStream, Ask, Leave;
    LeaveEffects(c);
    match t
    case Hello(_, gzip, _) => HelloEffects(c, gzip);
    case Ping(_, payload) =>
      RestEffects(c, Loop);
      AskEffects(c, Ping(true, payload), Loop, true);
    case GoAway(_, code, _) => RestEffects(c, Cancel(c.streams.Keys, code));
    case MakeStream(id) => MakeEffects(c, id);
    case ResetStream(id, code) => ToStreamEffects(c, id, Packet.Reset(code));
    case DataFrame(id, endData, endStream, payload) => ToStreamEffects(c, id, Data(payload, endData, endStream));
  }

  /** Dispatch in terms of the frame alone: when it violates, what it registers, what it answers. */
  lemma DispatchVerdict(c: Conn, f: Frame)
    requires Measured(f)
    ensures var bad := Violates(c, f);
      Effects(c.(dispatched := c.dispatched + [f]), Dispatch(c, f), bad, !bad && f.kind == HELLO,
              if !bad && f.kind == MAKE_STREAM then Some(f.streamID) else None)
  {
    var c' := c.(dispatched := c.dispatched + [f]);
    if f.kind <= DATA {
      MeasuredParses(f);
    }
    if Accepts(f) {
      ParsedKind(f);
      hide FromFrame, Process, Effects;
      ProcessEffects(c', FromFrame(f.kind, f).typed);
      KindIs(FromFrame(f.kind, f).typed);
    } else {
      hide FromFrame, Effects, Leave;
      LeaveEffects(c');
    }
  }

  lemma KindIs(t: Typed)
    ensures (KindOf(t) == HELLO <==> t.Hello?) && (KindOf(t) == MAKE_STREAM <==> t.MakeStream?)
  {
  }

  // Greeting and registration.

  /** How many of the frames are of kind `k`. */
  function Tally(k: byte, fs: seq<Typed>): nat {
    if fs == [] then 0 else (if KindOf(fs[0]) == k then 1 else 0) + Tally(k, fs[1..])
  }

  function Outbound(q: seq<Out>): (r: seq<Typed>)
    ensures |r| == |q|
  {
    seq(|q|, i requires 0 <= i < |q| => q[i].frame)
  }

  /** The frames of kind `k` written, queued and about to be queued. */
  function Load(k: byte, c: Conn): nat {
    Tally(k, c.wire) + Tally(k, Outbound(c.queue))
    + (if c.reader.Sending? then Tally(k, [c.reader.out.frame]) else 0)
  }

  lemma {:induction false} TallyConcat(k: byte, a: seq<Typed>, b: seq<Typed>)
    ensures Tally(k, a + b) == Tally(k, a) + Tally(k, b)
  {
    if a == [] {
      assert a + b == b;
    } else {
      assert (a + b)[1..] == a[1..] + b;
      TallyConcat(k, a[1..], b);
    }
  }

  predicate Distinct(ids: seq<nat>) { forall i, j :: 0 <= i < j < |ids| ==> ids[i] != ids[j] }

  predicate Greets(c: Conn) { Load(HELLO, c) <= if c.configured then 1 else 0 }

  /** No GOAWAY is on its way unless a frame violated the protocol. */
  predicate Polite(c: Conn) { Load(GO_AWAY, c) == 0 || c.violated }

  predicate Registers(c: Conn) {
    && (!c.configured ==> c.serviced == [])
    && Distinct(c.serviced)
    && c.streams.Keys == set id | id in c.serviced
  }

  /** A step other than a dispatch: it adds no HELLO and no GOAWAY and registers nothing. */
  ghost predicate Idles(c: Conn, d: Conn) {
    && Load(HELLO, d) <= Load(HELLO, c) && Load(GO_AWAY, d) <= Load(GO_AWAY, c)
    && d.configured == c.configured && d.violated == c.violated && d.serviced == c.serviced
    && d.dispatched == c.dispatched && d.streams.Keys == c.streams.Keys
  }

  lemma OutboundAppend(k: byte, q: seq<Out>, o: Out)
    ensures Tally(k, Outbound(q + [o])) == Tally(k, Outbound(q)) + Tally(k, [o.frame])
  {
    assert Outbound(q + [o]) == Outbound(q) + [o.frame];
    TallyConcat(k, Outbound(q), [o.frame]);
  }

  lemma EmitLoad(k: byte, c: Conn)
    requires Enabled(c, DoEmit)
    ensures Load(k, After(c, DoEmit)) <= Load(k, c)
  {
    var o, q := c.queue[0], c.queue[1..];
    assert Outbound(c.queue) == [o.frame] + Outbound(q);
    TallyConcat(k, [o.frame], Outbound(q));
    TallyConcat(k, c.wire, [o.frame]);
  }

  lemma PushLoad(k: byte, c: Conn)
    requires Enabled(c, Push)
    ensures Load(k, After(c, Push)) <= Load(k, c)
  {
    OutboundAppend(k, c.queue, c.reader.out);
  }

  lemma QueueLoad(k: byte, c: Conn, id: nat, slot: nat)
    requires Enabled(c, Step.Queue(id, slot)) && k <= GO_AWAY
    ensures Load(k, After(c, Step.Queue(id, slot))) == Load(k, c)
  {
    var o := Out(c.made, OnWire(id, c.streams[id].pending[0]), Some(slot));
    OutboundAppend(k, c.queue, o);
    assert Tally(k, [o.frame]) == 0;
    hide Tally, Outbound, OnWire, Dispatch, CancelOne, Called, Emit, Check;
  }

  lemma GetLoad(k: byte, c: Conn, slot: nat)
    requires Enabled(c, Get(slot))
    ensures Load(k, After(c, Get(slot))) == Load(k, c)
  {
    hide Tally, Outbound, OnWire, Dispatch, CancelOne, Called, Emit, Check;
  }

  /** A handler that is not dispatch's own, seen from the ledger. */
  lemma EffectsIdle(c: Conn, d: Conn)
    requires Effects(c, d, false, false, None)
    ensures Idles(c, d)
  {
    if d.reader.Sending? {
      TallyOne(HELLO, d.reader.out.frame);
      TallyOne(GO_AWAY, d.reader.out.frame);
    }
  }

  lemma CancelIdles(c: Conn, id: nat)
    requires Enabled(c, CancelStream(id))
    ensures Effects(c, After(c, CancelStream(id)), false, false, None)
  {
    hide Effects, ResetCall, Ask, OnWire;
    var code := c.reader.next.code;
    RepliesReset(c.streams[id].ep, Packet.Reset(0), code);
    ReplyEffects(c, id, ResetCall(c.streams[id].ep, code), Cancel(c.reader.next.todo - {id}, code));
  }

  /** Nothing written or queued, and no frame about to be. */
  lemma SilentIdles(c: Conn, d: Conn)
    requires d.wire == c.wire && d.queue == c.queue && (d.reader == c.reader || !d.reader.Sending?)
    requires d.configured == c.configured && d.violated == c.violated && d.serviced == c.serviced
    requires d.dispatched == c.dispatched && d.streams.Keys == c.streams.Keys
    ensures Idles(c, d)
  {
    hide Tally, Outbound;
  }

  lemma InvokeIdles(c: Conn, id: nat, call: Call)
    requires Enabled(c, Invoke(id, call))
    ensures Idles(c, After(c, Invoke(id, call)))
  {
    hide Dispatch, CancelOne, Called, Load;
    var d := After(c, Invoke(id, call));
    assert d.streams.Keys == c.streams.Keys + {id};
    SilentIdles(c, d);
  }

  /** The steps that carry frames along. */
  lemma CarryIdles(c: Conn, s: Step)
    requires Enabled(c, s) && (s.Get? || s.Push? || s.DoEmit? || s.Queue?)
    ensures Idles(c, After(c, s))
  {
    hide Dispatch, CancelOne, OnWire, Blocked, Called, Load;
    match s
    case Get(slot) =>
      GetLoad(HELLO, c, slot);
      GetLoad(GO_AWAY, c, slot);
    case Push =>
      PushLoad(HELLO, c);
      PushLoad(GO_AWAY, c);
    case DoEmit =>
      EmitLoad(HELLO, c);
      EmitLoad(GO_AWAY, c);
    case Queue(id, slot) =>
      assert After(c, s).streams.Keys == c.streams.Keys + {id};
      QueueLoad(HELLO, c, id, slot);
      QueueLoad(GO_AWAY, c, id, slot);
  }

  lemma OtherIdles(c: Conn, s: Step)
    requires Enabled(c, s)
    requires s.Receive? || s.CancelDone? || s.ReadFails? || s.Terminate? || s.Exit? || s.DoCheck? || s.Break? || s.Borrow?
    ensures Idles(c, After(c, s))
  {
    hide Idles;
    match s
    case Receive(f) => SilentIdles(c, c.(reader := Holding(f)));
    case CancelDone => SilentIdles(c, c.(reader := Ending));
    case ReadFails => SilentIdles(c, c.(failed := true, reader := Ending));
    case Terminate => SilentIdles(c, c.(running := false, reader := Stopped));
    case Exit => SilentIdles(c, c.(reader := Stopped));
    case DoCheck => SilentIdles(c, Check(c));
    case Break => SilentIdles(c, c.(broken := true));
    case Borrow(slot) => SilentIdles(c, c.(slots := c.slots - {slot}));
  }

  lemma StepIdles(c: Conn, s: Step)
    requires Enabled(c, s) && !s.DoDispatch?
    ensures Idles(c, After(c, s))
  {
    hide After, Idles, Effects;
    if s.Get? || s.Push? || s.DoEmit? || s.Queue? {
      CarryIdles(c, s);
    } else if s.CancelStream? {
      CancelIdles(c, s.id);
      EffectsIdle(c, After(c, s));
    } else if s.Invoke? {
      InvokeIdles(c, s.id, s.call);
    } else {
      OtherIdles(c, s);
    }
  }

  // Conformance: the verdict from the frames alone.

  /** The ids that the frames ask to make, in order. */
  function MakeIds(fs: seq<Frame>): seq<nat> {
    if fs == [] then []
    else
      var f := fs[|fs| - 1];
      MakeIds(fs[..|fs| - 1]) + (if f.kind == MAKE_STREAM then [f.streamID] else [])
  }

  /** What a peer may send: well-formed frames, one HELLO and that first, no id made twice. */
  ghost predicate Conforming(fs: seq<Frame>) {
    && (forall i :: 0 <= i < |fs| ==> Accepts(fs[i]))
    && (forall i :: 0 <= i < |fs| ==> (fs[i].kind == HELLO <==> i == 0))
    && (forall i, j :: 0 <= i < j < |fs| && fs[i].kind == MAKE_STREAM && fs[j].kind == MAKE_STREAM ==>
      fs[i].streamID != fs[j].streamID)
  }

  lemma {:induction false} MakeIdsAre(fs: seq<Frame>, id: nat)
    ensures id in MakeIds(fs) <==> exists i :: 0 <= i < |fs| && fs[i].kind == MAKE_STREAM && fs[i].streamID == id
  {
    if fs != [] {
      var n := |fs| - 1;
      MakeIdsAre(fs[..n], id);
      if i :| 0 <= i < n && fs[i].kind == MAKE_STREAM && fs[i].streamID == id {
        assert fs[..n][i] == fs[i];
      }
    }
  }

  lemma ConformingNext(fs: seq<Frame>, f: Frame)
    ensures Conforming(fs + [f]) <==>
      Conforming(fs) && Accepts(f) && (f.kind == HELLO <==> fs == [])
      && (f.kind == MAKE_STREAM ==> f.streamID !in MakeIds(fs))
  {
    var gs := fs + [f];
    MakeIdsAre(fs, f.streamID);
    assert forall i :: 0 <= i < |fs| ==> gs[i] == fs[i];
    assert gs[|fs|] == f;
  }

  /** As long as the peer conforms, the ledger is a function of what it sent. */
  ghost predicate Judged(c: Conn) {
    && (c.violated <==> !Conforming(c.dispatched))
    && (!c.violated ==> (c.configured <==> c.dispatched != []) && c.serviced == MakeIds(c.dispatched))
  }

  ghost predicate Ledger(c: Conn) { Greets(c) && Polite(c) && Registers(c) && Judged(c) }

  lemma DispatchLoads(c: Conn, f: Frame)
    requires c.reader.Holding? && Measured(f)
    ensures var d, bad := Dispatch(c, f), Violates(c, f);
      && Load(HELLO, d) <= Load(HELLO, c) + (if !bad && f.kind == HELLO then 1 else 0)
      && (!bad ==> Load(GO_AWAY, d) == Load(GO_AWAY, c))
  {
    hide Dispatch, Violates;
    DispatchVerdict(c, f);
    var d := Dispatch(c, f);
    if d.reader.Sending? {
      TallyOne(HELLO, d.reader.out.frame);
      TallyOne(GO_AWAY, d.reader.out.frame);
    }
  }

  lemma TallyOne(k: byte, t: Typed)
    ensures Tally(k, [t]) == if KindOf(t) == k then 1 else 0
  {
    assert [t][1..] == [];
  }

  lemma DispatchRegisters(c: Conn)
    requires Sane(c) && Registers(c) && Enabled(c, DoDispatch)
    ensures Registers(After(c, DoDispatch))
  {
    var f := c.reader.received;
    DispatchVerdict(c, f);
    hide Dispatch, FromFrame;
    var d := Dispatch(c, f);
    if d.serviced != c.serviced {
      assert f.streamID !in c.serviced;
    }
  }

  lemma DispatchJudged(c: Conn)
    requires Sane(c) && Registers(c) && Judged(c) && Enabled(c, DoDispatch)
    ensures Judged(After(c, DoDispatch))
  {
    var f := c.reader.received;
    DispatchVerdict(c, f);
    ConformingNext(c.dispatched, f);
    hide Dispatch, FromFrame, Accepts, Conforming;
    var d := Dispatch(c, f);
    assert d.dispatched[..|c.dispatched|] == c.dispatched;
    assert MakeIds(d.dispatched) == MakeIds(c.dispatched) + (if f.kind == MAKE_STREAM then [f.streamID] else []);
  }

  lemma DispatchGreets(c: Conn)
    requires Sane(c) && Greets(c) && Polite(c) && Enabled(c, DoDispatch)
    ensures Greets(After(c, DoDispatch)) && Polite(After(c, DoDispatch))
  {
    DispatchVerdict(c, c.reader.received);
    DispatchLoads(c, c.reader.received);
    assert After(c, DoDispatch) == Dispatch(c, c.reader.received);
    hide After, Enabled, Dispatch, Load, Sane, Accepts;
  }

  lemma IdlesLedger(c: Conn, d: Conn)
    requires Ledger(c) && Idles(c, d)
    ensures Ledger(d)
  {
    hide Load, Conforming, MakeIds;
  }

  lemma StepLedger(c: Conn, s: Step)
    requires Sane(c) && Ledger(c) && Enabled(c, s)
    ensures Ledger(After(c, s))
  {
    hide Sane, Greets, Polite, Registers, Judged, After, Enabled, Idles;
    if s.DoDispatch? {
      DispatchGreets(c);
      DispatchRegisters(c);
      DispatchJudged(c);
    } else {
      StepIdles(c, s);
      IdlesLedger(c, After(c, s));
    }
  }

  // Whole runs.

  lemma StepSane(c: Conn, s: Step)
    requires Sane(c) && Enabled(c, s)
    ensures Sane(After(c, s))
  {
    StepOrderly(c, s, false);
    hide After, Enabled, Sane;
  }

  /** A run in which no pooled object is taken between the writing of its frame and the comparison. */
  predicate Sparing(c: Conn, steps: seq<Step>)
    decreases |steps|
  {
    steps == [] ||
    if Enabled(c, steps[0]) then Spares(c, steps[0]) && Sparing(After(c, steps[0]), steps[1..]) else Sparing(c, steps[1..])
  }

  lemma {:induction false} RunOrderly(c: Conn, steps: seq<Step>)
    requires Orderly(c, true) && Sparing(c, steps)
    ensures Orderly(Run(c, steps), true)
    decreases |steps|
  {
    hide Orderly, After, Enabled, Spares;
    if steps != [] {
      var s := steps[0];
      if Enabled(c, s) {
        StepOrderly(c, s, true);
      }
      RunOrderly(if Enabled(c, s) then After(c, s) else c, steps[1..]);
    }
  }

  ghost predicate Inv(c: Conn) { Sane(c) && Ledger(c) }

  lemma {:induction false} RunInv(c: Conn, steps: seq<Step>)
    requires Inv(c)
    ensures Inv(Run(c, steps))
    decreases |steps|
  {
    hide Sane, Ledger, After, Enabled;
    if steps != [] {
      var s := steps[0];
      if Enabled(c, s) {
        StepSane(c, s);
        StepLedger(c, s);
      }
      RunInv(if Enabled(c, s) then After(c, s) else c, steps[1..]);
    }
  }

  lemma NewConnInv()
    ensures Inv(NewConn)
  {
  }

  /**
   * In every run: no stream is registered before HELLO, at most one HELLO is ever answered, every id
   * reaches ServiceStream at most once, and a GOAWAY is sent only to a peer that broke the rules. If no
   * pooled object was taken before its frame was compared, then once such a connection is down the last
   * frame on the wire is a PROTOCOL_ERROR GOAWAY - unless the socket itself refused it.
   */
  lemma HandshakeHolds(steps: seq<Step>)
    ensures var c := Run(NewConn, steps);
      && (!c.configured ==> c.streams == map[] && c.serviced == [])
      && Tally(HELLO, c.wire) <= (if c.configured then 1 else 0)
      && Distinct(c.serviced) && (c.streams.Keys == set id | id in c.serviced)
      && (Tally(GO_AWAY, c.wire) > 0 ==> c.violated) && (c.panicked ==> !c.running)
      && (Sparing(NewConn, steps) && c.violated && !c.running && !c.broken ==> Says(c, Farewell))
  {
    NewConnInv();
    RunInv(NewConn, steps);
    if Sparing(NewConn, steps) {
      NewConnOrderly();
      RunOrderly(NewConn, steps);
    }
    hide Run, Sparing;
  }

  lemma NewConnOrderly()
    ensures Orderly(NewConn, true)
  {
  }

  /** The connection goes away exactly when what it was sent breaks the rules. */
  lemma ExactlyTheRules(steps: seq<Step>)
    ensures var c := Run(NewConn, steps);
      && (c.violated <==> !Conforming(c.dispatched))
      && (Conforming(c.dispatched) ==> c.terminateAfter == None && c.serviced == MakeIds(c.dispatched))
  {
    NewConnInv();
    RunInv(NewConn, steps);
    hide Run;
  }

  /** Once down, the connection stays down and its wire stays as it is. */
  lemma {:induction false} NeverRunsAgain(c: Conn, steps: seq<Step>)
    requires !c.running
    ensures !Run(c, steps).running && Run(c, steps).wire == c.wire
    decreases |steps|
  {
    if steps != [] {
      var s := steps[0];
      if Enabled(c, s) {
        DownStep(c, s);
      }
      NeverRunsAgain(if Enabled(c, s) then After(c, s) else c, steps[1..]);
    }
  }

  lemma DownStep(c: Conn, s: Step)
    requires !c.running && Enabled(c, s)
    ensures !After(c, s).running && After(c, s).wire == c.wire
  {
    hide Dispatch, CancelOne;
    match s
    case DoDispatch => DispatchStays(c, c.reader.received);
    case CancelStream(id) => CancelIdles(c, id);
    case _ =>
  }

  /** The three ways of dispatch. */
  lemma DispatchIs(c: Conn, f: Frame)
    ensures var c' := c.(dispatched := c.dispatched + [f]);
      if f.kind > DATA then Dispatch(c, f) == Leave(c')
      else match FromFrame(f.kind, f)
        case Parsed(t) => Dispatch(c, f) == Process(c', t)
        case Rejected(_) => Dispatch(c, f) == Leave(c')
        case Panics => Dispatch(c, f) == c'.(panicked := true)
  {
    hide FromFrame, Process, Leave;
  }

  lemma DispatchStays(c: Conn, f: Frame)
    ensures Dispatch(c, f).running == c.running && Dispatch(c, f).wire == c.wire
  {
    hide FromFrame, Process, Leave, Dispatch, Effects;
    var c' := c.(dispatched := c.dispatched + [f]);
    DispatchIs(c, f);
    LeaveEffects(c');
    EffectsStay(c', Leave(c'), true, false, None);
    if f.kind <= DATA && FromFrame(f.kind, f).Parsed? {
      var t := FromFrame(f.kind, f).typed;
      var bad := (t.Hello? <==> c'.configured) || (t.MakeStream? && t.id in c'.streams);
      ProcessEffects(c', t);
      EffectsStay(c', Process(c', t), bad, !bad && t.Hello?, if !bad && t.MakeStream? then Some(t.id) else None);
    }
  }

  lemma EffectsStay(c: Conn, d: Conn, bad: bool, hello: bool, made: Option<nat>)
    requires Effects(c, d, bad, hello, made)
    ensures d.running == c.running && d.wire == c.wire && d.panicked == c.panicked
  {
  }

  // Runs, step by step.

  lemma RunOne(c: Conn, a: Step, rest: seq<Step>)
    requires Enabled(c, a)
    ensures Run(c, [a] + rest) == Run(After(c, a), rest)
  {
    assert ([a] + rest)[1..] == rest;
  }

  lemma RunTwo(c: Conn, a: Step, b: Step, rest: seq<Step>)
    requires Enabled(c, a) && Enabled(After(c, a), b)
    ensures Run(c, [a, b] + rest) == Run(After(After(c, a), b), rest)
  {
    hide After, Enabled, Run;
    RunOne(c, a, [b] + rest);
    RunOne(After(c, a), b, rest);
    assert [a, b] + rest == [a] + ([b] + rest);
  }

  lemma RunNone(c: Conn)
    ensures Run(c, []) == c
  {
  }
}
