/**
 * What a connection puts on the wire in every run: frames its peer can read, as long as they are not
 * compressed, and the DATA of each stream in the order in which its owner wrote it.
 */
module Transport {
  import opened Base
  import opened Readers
  import opened Streams
  import opened Frames
  import opened Connections
  import opened Handshake
  import opened Duties
  import Farewells

  // Every frame is one that the format carries and the peer accepts.

  /** A frame that the format carries and the peer's FromFrame accepts. */
  predicate Fine(t: Typed) { InRange(t) && Proper(t) && Measured(IntoFrame(t)) }

  ghost predicate AllFine(ts: seq<Typed>) { forall i :: 0 <= i < |ts| ==> Fine(ts[i]) }

  ghost predicate Legible(c: Conn) {
    && AllFine(c.wire) && AllFine(Outbound(c.queue)) && AllFine(Saying(c.reader))
    && (forall id :: id in c.streams ==> 0 < id < TWO_32 && AllSendable(c.streams[id].pending))
    && (NextOf(c.reader).Cancel? ==> NextOf(c.reader).code < TWO_32)
    && (c.reader.Holding? ==> Measured(c.reader.received) && Carriable(c.reader.received))
  }

  /** What a stream's calls queue: segments, and resets with a uint32 code. */
  predicate Sendable(p: Packet) {
    match p
    case Data(payload, _, _) => |payload| <= MAX_PAYLOAD
    case Reset(code) => code < TWO_32
  }

  predicate AllSendable(ps: seq<Packet>) { forall i :: 0 <= i < |ps| ==> Sendable(ps[i]) }

  lemma CallsSendable(l: Line, call: Call)
    requires AllSendable(l.pending) && (call.CallReset? ==> call.code < TWO_32)
    ensures AllSendable(Called(l, call).pending)
  {
    if call.CallWrite? {
      SegmentsCarry(call.data, call.endStream);
    }
    hide Segments;
  }

  lemma PacketFine(id: nat, p: Packet)
    requires 0 < id < TWO_32 && Sendable(p)
    ensures Fine(OnWire(id, p))
  {
  }

  lemma OwnFine(gzip: bool, payload: bytes, id: nat)
    requires |payload| == 8 && 0 < id < TWO_32
    ensures Fine(Hello(true, gzip, 0)) && Fine(Ping(true, payload)) && Fine(Farewell)
    ensures Fine(ResetStream(id, PROTOCOL_ERROR))
  {
  }

  ghost predicate IdsFine(c: Conn) {
    forall id :: id in c.streams ==> 0 < id < TWO_32 && AllSendable(c.streams[id].pending)
  }

  /** What a handler may leave behind. */
  ghost predicate Spoken(c: Conn, d: Conn) {
    && d.wire == c.wire && d.queue == c.queue && AllFine(Saying(d.reader)) && !d.reader.Holding?
    && IdsFine(d)
    && (NextOf(d.reader).Cancel? ==> NextOf(d.reader).code < TWO_32)
  }

  lemma ReplySpoken(c: Conn, id: nat, r: Reply, next: Next)
    requires id in c.streams && IdsFine(c)
    requires (r.out != [] ==> Sendable(r.out[0])) && (next.Cancel? ==> next.code < TWO_32)
    ensures var c' := Moved(c, id, r.ep);
      Spoken(c, if r.out == [] then c'.(reader := Ready(next)) else Ask(c', OnWire(id, r.out[0]), next, false))
  {
    if r.out != [] {
      PacketFine(id, r.out[0]);
    }
    hide Fine, OnWire, Sendable;
  }

  lemma ToStreamSpoken(c: Conn, id: nat, p: Packet)
    requires 0 < id < TWO_32 && IdsFine(c)
    ensures Spoken(c, ToStream(c, id, p))
  {
    OwnFine(false, Zeros(8), id);
    if id in c.streams {
      var r := Handle(c.streams[id].ep, p);
      RepliesReset(c.streams[id].ep, p, 0);
      hide Fine, Handle, OnWire, Sendable, Spoken;
      ReplySpoken(c, id, r, Loop);
    } else {
      hide Fine;
    }
  }

  lemma AskSpoken(c: Conn, t: Typed, fatal: bool)
    requires Fine(t) && IdsFine(c)
    ensures Spoken(c, Ask(c, t, Loop, fatal))
  {
    hide Fine;
  }

  lemma HelloSpoken(c: Conn, gzip: bool)
    requires Fine(Hello(true, gzip, 0)) && IdsFine(c)
    ensures Spoken(c, Ask(c.(configured := true, compressing := gzip), Hello(true, gzip, 0), Loop, true))
  {
    hide Fine;
  }

  lemma LeaveSpoken(c: Conn)
    requires Fine(Farewell) && IdsFine(c)
    ensures Spoken(c, Leave(c))
  {
    hide Fine;
  }

  lemma RestSpoken(c: Conn, next: Next)
    requires IdsFine(c) && (next.Cancel? ==> next.code < TWO_32)
    ensures Spoken(c, c.(reader := Ready(next)))
  {
  }

  lemma MakeSpoken(c: Conn, id: nat)
    requires IdsFine(c) && 0 < id < TWO_32
    ensures Spoken(c, c.(streams := c.streams[id := NewLine], serviced := c.serviced + [id], reader := Ready(Loop)))
  {
  }

  lemma ProcessSpoken(c: Conn, t: Typed)
    requires InRange(t) && Proper(t) && (t.Ping? ==> |t.payload| == 8) && IdsFine(c)
    ensures Spoken(c, Process(c, t))
  {
    OwnFine(t.Hello? && t.gzip, if t.Ping? then t.payload else Zeros(8), 1);
    assert t.MakeStream? || t.ResetStream? || t.DataFrame? ==> 0 < t.id < TWO_32;
    assert t.GoAway? ==> t.code < TWO_32;
    hide Fine, ToStream, InRange, Proper, Ask, Leave, Spoken;
    LeaveSpoken(c);
    match t
    case Hello(_, gzip, _) => HelloSpoken(c, gzip);
    case Ping(_, payload) =>
      RestSpoken(c, Loop);
      AskSpoken(c, Ping(true, payload), true);
    case GoAway(_, code, _) => RestSpoken(c, Cancel(c.streams.Keys, code));
    case MakeStream(id) => MakeSpoken(c, id);
    case ResetStream(id, code) => ToStreamSpoken(c, id, Packet.Reset(code));
    case DataFrame(id, endData, endStream, payload) => ToStreamSpoken(c, id, Data(payload, endData, endStream));
  }

  lemma AcceptedFits(f: Frame)
    requires Accepts(f) && Measured(f) && Carriable(f)
    ensures var t := FromFrame(f.kind, f).typed;
      InRange(t) && Proper(t) && (t.Ping? ==> |t.payload| == 8)
  {
    AcceptedReframes(f);
    ParsedPing(f);
    hide U32;
  }

  lemma SpokenLegible(c: Conn, d: Conn)
    requires AllFine(c.wire) && AllFine(Outbound(c.queue)) && Spoken(c, d)
    ensures Legible(d)
  {
    hide Fine;
  }

  lemma DispatchLegible(c: Conn)
    requires Legible(c) && c.reader.Holding?
    ensures Legible(Dispatch(c, c.reader.received))
  {
    var f := c.reader.received;
    var c' := c.(dispatched := c.dispatched + [f]);
    OwnFine(false, Zeros(8), 1);
    if f.kind <= DATA {
      MeasuredParses(f);
    }
    if Accepts(f) {
      AcceptedFits(f);
      hide FromFrame, Process, Fine, InRange, Proper, Spoken, AllFine;
      ProcessSpoken(c', FromFrame(f.kind, f).typed);
    } else {
      hide FromFrame, Fine, Spoken, Leave, AllFine;
      LeaveSpoken(c');
    }
    hide Spoken, Dispatch, AllFine, FromFrame;
    SpokenLegible(c', Dispatch(c, f));
  }

  lemma OutboundFine(q: seq<Out>, o: Out)
    requires AllFine(Outbound(q)) && Fine(o.frame)
    ensures AllFine(Outbound(q + [o]))
  {
    hide Fine;
    var a, b := Outbound(q), Outbound(q + [o]);
    forall i | 0 <= i < |b|
      ensures Fine(b[i])
    {
      if i < |q| {
        assert b[i] == a[i];
      }
    }
  }

  lemma EmitLegible(c: Conn)
    requires Legible(c) && Enabled(c, DoEmit)
    ensures Legible(After(c, DoEmit))
  {
    hide Fine, Dispatch, CancelOne;
    var d := After(c, DoEmit);
    var a, b := Outbound(c.queue), Outbound(d.queue);
    assert a[0] == c.queue[0].frame;
    assert forall i :: 0 <= i < |b| ==> b[i] == a[i + 1];
  }

  lemma CancelLegible(c: Conn, id: nat)
    requires Legible(c) && Enabled(c, CancelStream(id))
    ensures Legible(After(c, CancelStream(id)))
  {
    var code := c.reader.next.code;
    var r := ResetCall(c.streams[id].ep, code);
    RepliesReset(c.streams[id].ep, Packet.Reset(0), code);
    hide Fine, ResetCall, Sendable, OnWire, Dispatch;
    ReplySpoken(c, id, r, Cancel(c.reader.next.todo - {id}, code));
  }

  lemma QueueLegible(c: Conn, id: nat, slot: nat)
    requires Legible(c) && Enabled(c, Step.Queue(id, slot))
    ensures Legible(After(c, Step.Queue(id, slot)))
  {
    var p := c.streams[id].pending[0];
    PacketFine(id, p);
    AfterQueue(c, id, slot);
    hide After, Fine, OnWire, Outbound, Sendable;
    OutboundFine(c.queue, Out(c.made, OnWire(id, p), Some(slot)));
  }

  lemma GetLegible(c: Conn, slot: nat)
    requires Legible(c) && Enabled(c, Get(slot))
    ensures Legible(After(c, Get(slot)))
  {
    AfterGet(c, slot);
    hide After, Fine, Outbound, AllSendable;
    assert Saying(After(c, Get(slot)).reader) == Saying(c.reader);
  }

  lemma InvokeLegible(c: Conn, id: nat, call: Call)
    requires Legible(c) && Enabled(c, Invoke(id, call))
    ensures Legible(After(c, Invoke(id, call)))
  {
    CallsSendable(c.streams[id], call);
    hide Fine, Dispatch, CancelOne, Called, OnWire, Outbound, AllSendable;
  }

  lemma StepLegible(c: Conn, s: Step)
    requires Legible(c) && Enabled(c, s)
    ensures Legible(After(c, s))
  {
    hide Fine, Dispatch, CancelOne, Called, OnWire, Outbound, AllSendable;
    match s
    case DoDispatch => DispatchLegible(c);
    case DoEmit => EmitLegible(c);
    case CancelStream(id) => CancelLegible(c, id);
    case Push =>
      assert Fine(Saying(c.reader)[0]);
      OutboundFine(c.queue, c.reader.out);
    case Get(slot) => GetLegible(c, slot);
    case Queue(id, slot) => QueueLegible(c, id, slot);
    case Invoke(id, call) => InvokeLegible(c, id, call);
    case _ =>
  }

  // Compression.

  /** The first HELLO that was accepted asked for compression. */
  ghost function GzipAsked(fs: seq<Frame>): bool {
    if fs == [] then false
    else
      var n := |fs| - 1;
      GzipAsked(fs[..n]) || (!Greeted(fs[..n]) && fs[n].kind == HELLO && Accepts(fs[n]) && fs[n].flags / 2 % 2 == 1)
  }

  lemma GzipNext(fs: seq<Frame>, f: Frame)
    ensures GzipAsked(fs + [f]) <==>
      GzipAsked(fs) || (!Greeted(fs) && f.kind == HELLO && Accepts(f) && f.flags / 2 % 2 == 1)
  {
    var gs := fs + [f];
    assert gs[..|fs|] == fs && gs[|fs|] == f;
  }

  /** An answered HELLO carries the choice that was made. */
  ghost predicate Tells(c: Conn, t: Typed) { t.Hello? ==> c.configured && t == Hello(true, c.compressing, 0) }

  ghost predicate AllTell(c: Conn, ts: seq<Typed>) { forall i :: 0 <= i < |ts| ==> Tells(c, ts[i]) }

  /** The connection compresses if and only if it was asked to. */
  ghost predicate Chosen(c: Conn) {
    && (c.compressing <==> GzipAsked(c.dispatched))
    && (c.configured <==> Greeted(c.dispatched)) && (c.compressing ==> c.configured)
  }

  /** What is compressed on the wire, and which HELLOs are. */
  ghost predicate Labelled(c: Conn) {
    && |c.packed| == |c.wire|
    && AllTell(c, c.wire) && AllTell(c, Outbound(c.queue)) && AllTell(c, Saying(c.reader))
    && (forall i :: 0 <= i < |c.wire| ==>
          (c.packed[i] ==> c.compressing) && (c.wire[i].Hello? ==> c.packed[i] == c.wire[i].gzip))
    && Lasting(c.packed)
  }

  /** Once compressed, always compressed. */
  ghost predicate Lasting(packed: seq<bool>) {
    forall i, j :: 0 <= i < j < |packed| && packed[i] ==> packed[j]
  }

  lemma LastingNext(packed: seq<bool>, b: bool)
    requires Lasting(packed) && forall i :: 0 <= i < |packed| && packed[i] ==> b
    ensures Lasting(packed + [b])
  {
  }

  lemma ParsedHello(f: Frame)
    requires Accepts(f) && f.kind == HELLO
    ensures var t := FromFrame(f.kind, f).typed;
      t.Hello? && (t.gzip <==> f.flags / 2 % 2 == 1)
  {
  }

  lemma DispatchGzip(c: Conn, f: Frame)
    requires Accepts(f) && f.kind == HELLO && !c.configured
    ensures Dispatch(c, f).compressing <==> f.flags / 2 % 2 == 1
  {
    ParsedHello(f);
    hide FromFrame;
  }

  lemma DispatchChosen(c: Conn)
    requires Sane(c) && Chosen(c) && Enabled(c, DoDispatch)
    ensures Chosen(After(c, DoDispatch))
  {
    var f := c.reader.received;
    DispatchVerdict(c, f);
    AskedNext(c.dispatched, f);
    GzipNext(c.dispatched, f);
    if Accepts(f) && f.kind == HELLO && !c.configured {
      DispatchGzip(c, f);
    }
    hide Dispatch, GzipAsked, Greeted, Accepts;
  }

  lemma StillTell(c: Conn, d: Conn, ts: seq<Typed>)
    requires AllTell(c, ts) && (c.configured ==> d.configured && d.compressing == c.compressing)
    ensures AllTell(d, ts)
  {
    forall i | 0 <= i < |ts|
      ensures Tells(d, ts[i])
    {
      assert Tells(c, ts[i]);
    }
  }

  /** Handling a frame labels nothing wrongly: the choice is made before anything is told of it. */
  lemma EffectsLabelled(c: Conn, d: Conn, bad: bool, hello: bool, made: Option<nat>)
    requires Labelled(c) && Effects(c, d, bad, hello, made) && (hello ==> !c.configured)
    requires c.compressing ==> c.configured
    ensures Labelled(d)
  {
    hide Lasting, Outbound;
    StillTell(c, d, c.wire);
    StillTell(c, d, Outbound(c.queue));
  }

  lemma DispatchLabelled(c: Conn)
    requires Sane(c) && Labelled(c) && Chosen(c) && Enabled(c, DoDispatch)
    ensures Labelled(After(c, DoDispatch))
  {
    var f := c.reader.received;
    var c' := c.(dispatched := c.dispatched + [f]);
    DispatchVerdict(c, f);
    hide Dispatch, Accepts, Effects;
    SameLabels(c, c');
    var bad := Violates(c, f);
    EffectsLabelled(c', Dispatch(c, f), bad, !bad && f.kind == HELLO,
                    if !bad && f.kind == MAKE_STREAM then Some(f.streamID) else None);
  }

  /** Labelled looks at nothing else. */
  lemma SameLabels(c: Conn, d: Conn)
    requires Labelled(c) && d.wire == c.wire && d.packed == c.packed && d.queue == c.queue
    requires Saying(d.reader) == Saying(c.reader) || Saying(d.reader) == []
    requires d.configured == c.configured && d.compressing == c.compressing
    ensures Labelled(d)
  {
    hide Lasting, Outbound, Saying;
    StillTell(c, d, c.wire);
    StillTell(c, d, Outbound(c.queue));
    StillTell(c, d, Saying(c.reader));
  }

  lemma EmitLabelled(c: Conn)
    requires Labelled(c) && Enabled(c, DoEmit)
    ensures Labelled(After(c, DoEmit))
  {
    hide Dispatch, CancelOne;
    LastingNext(c.packed, c.compressing);
    hide Lasting;
    var d := After(c, DoEmit);
    var a, b := Outbound(c.queue), Outbound(d.queue);
    assert a[0] == c.queue[0].frame;
    assert forall i :: 0 <= i < |b| ==> b[i] == a[i + 1];
    assert Tells(c, a[0]);
    StillTell(c, d, Saying(c.reader));
    forall i | 0 <= i < |b|
      ensures Tells(d, b[i])
    {
      assert Tells(c, a[i + 1]);
    }
    forall i | 0 <= i < |d.wire|
      ensures Tells(d, d.wire[i])
    {
      assert i < |c.wire| ==> Tells(c, c.wire[i]);
    }
  }

  lemma EnqueueLabelled(c: Conn, d: Conn, o: Out)
    requires Labelled(c) && Tells(c, o.frame) && d.queue == c.queue + [o]
    requires d.wire == c.wire && d.packed == c.packed
    requires Saying(d.reader) == Saying(c.reader) || Saying(d.reader) == []
    requires d.configured == c.configured && d.compressing == c.compressing
    ensures Labelled(d)
  {
    hide Lasting, Saying;
    StillTell(c, d, c.wire);
    StillTell(c, d, Saying(c.reader));
    var a, b := Outbound(c.queue), Outbound(d.queue);
    forall i | 0 <= i < |b|
      ensures Tells(d, b[i])
    {
      if i < |a| {
        assert Tells(c, a[i]) && b[i] == a[i];
      }
    }
  }

  lemma QueueLabelled(c: Conn, id: nat, slot: nat)
    requires Labelled(c) && Enabled(c, Step.Queue(id, slot))
    ensures Labelled(After(c, Step.Queue(id, slot)))
  {
    var p, d := c.streams[id].pending[0], After(c, Step.Queue(id, slot));
    StreamFrame(id, p);
    AfterQueue(c, id, slot);
    hide After, OnWire, Labelled;
    if c.running {
      EnqueueLabelled(c, d, Out(c.made, OnWire(id, p), Some(slot)));
    } else {
      SameLabels(c, d);
    }
  }

  lemma PushLabelled(c: Conn)
    requires Labelled(c) && Enabled(c, Push)
    ensures Labelled(After(c, Push))
  {
    assert Tells(c, Saying(c.reader)[0]);
    hide Dispatch, CancelOne, Labelled;
    if c.running {
      EnqueueLabelled(c, After(c, Push), c.reader.out);
    } else {
      SameLabels(c, After(c, Push));
    }
  }

  lemma StepLabelled(c: Conn, s: Step)
    requires Sane(c) && Labelled(c) && Chosen(c) && Enabled(c, s)
    ensures Labelled(After(c, s)) && Chosen(After(c, s))
  {
    if s.DoDispatch? {
      DispatchLabelled(c);
      DispatchChosen(c);
    } else {
      StepChoice(c, s);
      hide Dispatch, CancelOne, OnWire, Called, Labelled, Effects;
      if s.DoEmit? {
        EmitLabelled(c);
      } else if s.Push? {
        PushLabelled(c);
      } else if s.Queue? {
        QueueLabelled(c, s.id, s.slot);
      } else if s.CancelStream? {
        CancelIdles(c, s.id);
        EffectsLabelled(c, After(c, s), false, false, None);
      } else {
        SameLabels(c, After(c, s));
      }
    }
  }

  lemma StepChoice(c: Conn, s: Step)
    requires Enabled(c, s) && !s.DoDispatch?
    ensures After(c, s).compressing == c.compressing && After(c, s).configured == c.configured
    ensures After(c, s).dispatched == c.dispatched
  {
    hide Dispatch, CancelOne, OnWire, Called;
    if s.CancelStream? {
      CancelIdles(c, s.id);
    }
  }

  // Each stream's DATA, in order.

  /** The DATA of stream `id` among the frames, as the packets they were made from. */
  function DataOn(id: nat, ts: seq<Typed>): seq<Packet> {
    if ts == [] then []
    else
      var t := ts[0];
      (if t.DataFrame? && t.id == id then [Data(t.payload, t.endData, t.endStream)] else []) + DataOn(id, ts[1..])
  }

  function OneData(p: Packet): seq<Packet> { if p.Data? then [p] else [] }

  function DataPart(ps: seq<Packet>): seq<Packet> {
    if ps == [] then [] else OneData(ps[0]) + DataPart(ps[1..])
  }

  lemma {:induction false} DataOnConcat(id: nat, a: seq<Typed>, b: seq<Typed>)
    ensures DataOn(id, a + b) == DataOn(id, a) + DataOn(id, b)
  {
    if a == [] {
      assert a + b == b;
    } else {
      assert (a + b)[1..] == a[1..] + b;
      DataOnConcat(id, a[1..], b);
    }
  }

  lemma {:induction false} DataPartConcat(a: seq<Packet>, b: seq<Packet>)
    ensures DataPart(a + b) == DataPart(a) + DataPart(b)
  {
    hide OneData;
    if a == [] {
      assert a + b == b;
    } else {
      DataPartConcat(a[1..], b);
      DataPartStep(a, b);
      hide DataPart;
      var x, y, z := OneData(a[0]), DataPart(a[1..]), DataPart(b);
      assert x + (y + z) == (x + y) + z;
    }
  }

  lemma DataPartStep(a: seq<Packet>, b: seq<Packet>)
    requires a != []
    ensures DataPart(a + b) == OneData(a[0]) + DataPart(a[1..] + b)
    ensures DataPart(a) == OneData(a[0]) + DataPart(a[1..])
  {
    hide OneData;
    assert (a + b)[0] == a[0] && (a + b)[1..] == a[1..] + b;
  }

  /** A stream not registered has made nothing. */
  function LineOf(c: Conn, id: nat): Line { if id in c.streams then c.streams[id] else NewLine }

  /** What is on its way for stream `id` and not yet on the wire. */
  function Behind(c: Conn, id: nat): seq<Packet> {
    DataOn(id, Outbound(c.queue)) + DataPart(LineOf(c, id).pending)
  }

  ghost predicate InOrder(c: Conn, id: nat) {
    && (c.reader.Sending? ==> !c.reader.out.frame.DataFrame?)
    && (Sound(c) ==> DataOn(id, c.wire) + Behind(c, id) == DataPart(LineOf(c, id).made))
    && DataOn(id, c.wire) <= DataPart(LineOf(c, id).made)
  }

  /** The stream's line is as it was, but for its endpoint. */
  predicate SameLine(c: Conn, d: Conn, id: nat) {
    LineOf(d, id).pending == LineOf(c, id).pending && LineOf(d, id).made == LineOf(c, id).made
  }

  lemma SameOrder(c: Conn, d: Conn, id: nat)
    requires InOrder(c, id) && SameLine(c, d, id) && d.wire == c.wire && d.queue == c.queue
    requires (Sound(d) ==> Sound(c)) && (d.reader.Sending? ==> !d.reader.out.frame.DataFrame?)
    ensures InOrder(d, id)
  {
    hide DataOn, DataPart, Outbound, LineOf;
  }

  lemma MovedLine(c: Conn, j: nat, e: Endpoint, id: nat)
    requires j in c.streams
    ensures SameLine(c, Moved(c, j, e), id)
  {
  }

  lemma ToStreamMoves(c: Conn, j: nat, p: Packet)
    ensures ToStream(c, j, p).streams ==
      if j in c.streams then Moved(c, j, Handle(c.streams[j].ep, p).ep).streams else c.streams
  {
    hide Handle, OnWire, Moved, Ask;
    if j in c.streams {
      var r := Handle(c.streams[j].ep, p);
      if r.out != [] {
        AskKeeps(Moved(c, j, r.ep), OnWire(j, r.out[0]));
      }
    } else {
      AskKeeps(c, ResetStream(j, PROTOCOL_ERROR));
    }
  }

  lemma AskKeeps(c: Conn, t: Typed)
    ensures Ask(c, t, Loop, false).streams == c.streams
  {
  }

  lemma ToStreamLine(c: Conn, j: nat, p: Packet, id: nat)
    ensures SameLine(c, ToStream(c, j, p), id)
  {
    hide Handle, OnWire, Moved, ToStream;
    ToStreamMoves(c, j, p);
    if j in c.streams {
      MovedLine(c, j, Handle(c.streams[j].ep, p).ep, id);
    }
  }

  lemma SameStreams(c: Conn, d: Conn, id: nat)
    requires d.streams == c.streams
    ensures SameLine(c, d, id)
  {
  }

  lemma AskLine(c: Conn, t: Typed, fatal: bool, id: nat)
    ensures SameLine(c, Ask(c, t, Loop, fatal), id)
  {
    SameStreams(c, Ask(c, t, Loop, fatal), id);
  }

  lemma HelloLine(c: Conn, gzip: bool, id: nat)
    ensures SameLine(c, Ask(c.(configured := true, compressing := gzip), Hello(true, gzip, 0), Loop, true), id)
  {
    SameStreams(c, Ask(c.(configured := true, compressing := gzip), Hello(true, gzip, 0), Loop, true), id);
  }

  lemma LeaveLine(c: Conn, id: nat)
    ensures SameLine(c, Leave(c), id)
  {
    SameStreams(c, Leave(c), id);
  }

  lemma RestLine(c: Conn, next: Next, id: nat)
    ensures SameLine(c, c.(reader := Ready(next)), id)
  {
    SameStreams(c, c.(reader := Ready(next)), id);
  }

  lemma MakeLine(c: Conn, j: nat, id: nat)
    requires j !in c.streams
    ensures SameLine(c, c.(streams := c.streams[j := NewLine], serviced := c.serviced + [j], reader := Ready(Loop)), id)
  {
  }

  lemma ProcessLine(c: Conn, t: Typed, id: nat)
    ensures SameLine(c, Process(c, t), id)
  {
    hide ToStream, Ask, Leave, SameLine;
    LeaveLine(c, id);
    match t
    case Hello(_, gzip, _) => HelloLine(c, gzip, id);
    case Ping(_, payload) =>
      RestLine(c, Loop, id);
      AskLine(c, Ping(true, payload), true, id);
    case GoAway(_, code, _) => RestLine(c, Cancel(c.streams.Keys, code), id);
    case MakeStream(j) =>
      if j !in c.streams {
        MakeLine(c, j, id);
      }
    case ResetStream(j, code) => ToStreamLine(c, j, Packet.Reset(code), id);
    case DataFrame(j, endData, endStream, payload) => ToStreamLine(c, j, Data(payload, endData, endStream), id);
  }

  lemma DispatchLine(c: Conn, f: Frame, id: nat)
    ensures SameLine(c, Dispatch(c, f), id)
  {
    hide FromFrame, Process, Leave, Dispatch;
    var c' := c.(dispatched := c.dispatched + [f]);
    DispatchIs(c, f);
    LeaveLine(c', id);
    if f.kind <= DATA && FromFrame(f.kind, f).Parsed? {
      ProcessLine(c', FromFrame(f.kind, f).typed, id);
    }
  }

  lemma EmitOrder(c: Conn, id: nat)
    requires InOrder(c, id) && Enabled(c, DoEmit)
    ensures InOrder(After(c, DoEmit), id)
  {
    hide Dispatch, CancelOne, DataOn, DataPart;
    var o, d := c.queue[0], After(c, DoEmit);
    assert SameLine(c, d, id);
    if Sound(c) {
      assert Outbound(c.queue) == [o.frame] + Outbound(d.queue);
      DataOnConcat(id, [o.frame], Outbound(d.queue));
      DataOnConcat(id, c.wire, [o.frame]);
      assert DataOn(id, d.wire) + Behind(d, id) == DataOn(id, c.wire) + Behind(c, id);
    }
  }

  lemma QueuedOn(id: nat, q: seq<Out>, o: Out)
    ensures DataOn(id, Outbound(q + [o])) == DataOn(id, Outbound(q)) + DataOn(id, [o.frame])
  {
    hide DataOn;
    assert Outbound(q + [o]) == Outbound(q) + [o.frame];
    DataOnConcat(id, Outbound(q), [o.frame]);
  }

  lemma PushFacts(c: Conn)
    requires Enabled(c, Push)
    ensures var d := After(c, Push);
      && d.wire == c.wire && d.streams == c.streams && !d.reader.Sending? && Sound(d) == Sound(c)
      && d.queue == if c.running then c.queue + [c.reader.out] else c.queue
  {
    AfterPush(c);
    hide After;
  }

  lemma QueueFacts(c: Conn, j: nat, slot: nat)
    requires Enabled(c, Step.Queue(j, slot))
    ensures var l, d := c.streams[j], After(c, Step.Queue(j, slot));
      && d.wire == c.wire && d.reader == c.reader && Sound(d) == Sound(c)
      && d.streams == c.streams[j := l.(pending := l.pending[1..])]
      && d.queue == if c.running then c.queue + [Out(c.made, OnWire(j, l.pending[0]), Some(slot))] else c.queue
  {
    AfterQueue(c, j, slot);
    hide After, OnWire;
  }

  lemma NoDataOn(id: nat, t: Typed)
    ensures !t.DataFrame? ==> DataOn(id, [t]) == []
  {
  }

  lemma PushBehind(c: Conn, d: Conn, id: nat)
    requires c.reader.Sending? && !c.reader.out.frame.DataFrame? && d.streams == c.streams
    requires d.queue == c.queue || d.queue == c.queue + [c.reader.out]
    ensures Behind(d, id) == Behind(c, id)
  {
    NoDataOn(id, c.reader.out.frame);
    QueuedOn(id, c.queue, c.reader.out);
    hide DataOn, DataPart, Outbound;
    var a := DataOn(id, Outbound(c.queue));
    assert a + [] == a;
  }

  lemma BehindOrder(c: Conn, d: Conn, id: nat)
    requires InOrder(c, id) && !d.reader.Sending? && d.wire == c.wire && d.streams == c.streams
    requires Sound(d) == Sound(c) && Behind(d, id) == Behind(c, id)
    ensures InOrder(d, id)
  {
    hide DataOn, DataPart, Behind;
  }

  lemma PushOrder(c: Conn, id: nat)
    requires InOrder(c, id) && Enabled(c, Push)
    ensures InOrder(After(c, Push), id)
  {
    PushFacts(c);
    var d := After(c, Push);
    assert c.reader.Sending? && !c.reader.out.frame.DataFrame?;
    hide After, Enabled, InOrder, Behind;
    PushBehind(c, d, id);
    BehindOrder(c, d, id);
  }

  lemma OneOnWire(j: nat, p: Packet, id: nat)
    ensures DataOn(id, [OnWire(j, p)]) == if j == id then DataPart([p]) else []
  {
    assert [OnWire(j, p)][1..] == [] && [p][1..] == [];
  }

  lemma QueueOrder(c: Conn, j: nat, slot: nat, id: nat)
    requires InOrder(c, id) && Enabled(c, Step.Queue(j, slot))
    ensures InOrder(After(c, Step.Queue(j, slot)), id)
  {
    hide After, DataOn, DataPart, Outbound, OnWire;
    QueueFacts(c, j, slot);
    var l, d := c.streams[j], After(c, Step.Queue(j, slot));
    var p, rest := l.pending[0], l.pending[1..];
    OneOnWire(j, p, id);
    QueuedOn(id, c.queue, Out(c.made, OnWire(j, p), Some(slot)));
    if j == id {
      assert l.pending == [p] + rest;
      DataPartConcat([p], rest);
      assert c.running ==> Behind(d, id) == Behind(c, id);
    } else {
      assert LineOf(d, id) == LineOf(c, id);
    }
  }

  lemma InvokeOrder(c: Conn, j: nat, call: Call, id: nat)
    requires InOrder(c, id) && Enabled(c, Invoke(j, call))
    ensures InOrder(After(c, Invoke(j, call)), id)
  {
    hide Dispatch, CancelOne, DataOn, DataPart, CallReply, Outbound;
    if j == id {
      var l := c.streams[id];
      var out := CallReply(l.ep, call).out;
      DataPartConcat(l.pending, out);
      DataPartConcat(l.made, out);
    }
  }

  lemma StepOrder(c: Conn, s: Step, id: nat)
    requires Sane(c) && InOrder(c, id) && Enabled(c, s)
    ensures InOrder(After(c, s), id)
  {
    hide CancelOne, OnWire, Called, InOrder, LineOf, DataOn;
    if s.DoDispatch? {
      DispatchLine(c, c.reader.received, id);
      DispatchVerdict(c, c.reader.received);
      hide Dispatch;
      SameOrder(c, After(c, s), id);
    } else if s.DoEmit? {
      EmitOrder(c, id);
    } else if s.Push? {
      PushOrder(c, id);
    } else if s.Queue? {
      QueueOrder(c, s.id, s.slot, id);
    } else if s.Invoke? {
      InvokeOrder(c, s.id, s.call, id);
    } else {
      OtherOrder(c, s, id);
    }
  }

  lemma OtherOrder(c: Conn, s: Step, id: nat)
    requires InOrder(c, id) && Enabled(c, s)
    requires !s.DoDispatch? && !s.DoEmit? && !s.Push? && !s.Queue? && !s.Invoke?
    ensures InOrder(After(c, s), id)
  {
    if s.CancelStream? {
      CancelIdles(c, s.id);
      MovedLine(c, s.id, ResetCall(c.streams[s.id].ep, c.reader.next.code).ep, id);
      CancelMoves(c, s.id);
      hide After, DataOn, DataPart, Outbound, ResetCall;
      assert SameLine(c, After(c, s), id);
      SameOrder(c, After(c, s), id);
    } else {
      hide Dispatch, CancelOne, OnWire, Called, DataOn, DataPart, Outbound;
      SameOrder(c, After(c, s), id);
    }
  }

  // Whole runs.

  ghost predicate Carries(c: Conn, id: nat) {
    Sane(c) && Legible(c) && Labelled(c) && Chosen(c) && InOrder(c, id)
  }

  lemma {:induction false} RunCarries(c: Conn, steps: seq<Step>, id: nat)
    requires Carries(c, id)
    ensures Carries(Run(c, steps), id)
    decreases |steps|
  {
    hide Sane, Legible, Labelled, Chosen, InOrder, After, Enabled;
    if steps != [] {
      var s := steps[0];
      if Enabled(c, s) {
        StepSane(c, s);
        StepLegible(c, s);
        StepLabelled(c, s);
        StepOrder(c, s, id);
      }
      RunCarries(if Enabled(c, s) then After(c, s) else c, steps[1..], id);
    }
  }

  lemma NewCarries(id: nat)
    ensures Carries(NewConn, id)
  {
  }

  /**
   * In every run the DATA frames of a stream on the wire are, in order, the first of the segments that
   * its owner's calls made; and while the connection can write, what is queued and what is still to be
   * queued are the others: between a stream and the wire nothing is lost or overtaken.
   */
  lemma StreamsKeepTheirOrder(steps: seq<Step>, id: nat)
    ensures var c := Run(NewConn, steps);
      && DataOn(id, c.wire) <= DataPart(LineOf(c, id).made)
      && (Sound(c) ==> DataOn(id, c.wire) + Behind(c, id) == DataPart(LineOf(c, id).made))
  {
    hide Run, Sane, Legible, Labelled, Chosen;
    NewCarries(id);
    RunCarries(NewConn, steps, id);
  }

  /** A frame as Bytes writes it: with its payload through `z` when the connection compresses. */
  function OnSocket(t: Typed, packed: bool, z: bytes -> bytes): Frame {
    var f := IntoFrame(t);
    if packed then f.(payload := z(f.payload), length := |z(f.payload)| % TWO_16) else f
  }

  function Socket(c: Conn, z: bytes -> bytes): (r: seq<Frame>)
    ensures |r| == |c.wire|
  {
    seq(|c.wire|, i requires 0 <= i < |c.wire| => OnSocket(c.wire[i], i < |c.packed| && c.packed[i], z))
  }

  lemma FineCrosses(t: Typed)
    requires Fine(t)
    ensures var f := IntoFrame(t);
      Carriable(f) && Measured(f) && FromFrame(KindOf(t), f) == Parsed(t)
  {
    TypedRoundTrip(t);
    hide FromFrame, BE;
  }

  /**
   * Unless compression was asked for, whatever the connection has put on the wire in any run the peer's
   * frame reader, however the bytes reach it, reads as that very list of frames, and FromFrame accepts
   * each as what was meant.
   */
  lemma PeerReadsTheWire(steps: seq<Step>, z: bytes -> bytes, inp: Input, pos: nat)
    requires !GzipAsked(Run(NewConn, steps).dispatched)
    requires At(inp.data, pos, AllBytes(Socket(Run(NewConn, steps), z)))
    ensures var c := Run(NewConn, steps);
      var fs := Socket(c, z);
      && ReadFrames(inp, pos, |c.wire|) == Batch(fs, None, pos + |AllBytes(fs)|)
      && forall i :: 0 <= i < |c.wire| ==> FromFrame(KindOf(c.wire[i]), fs[i]) == Parsed(c.wire[i])
  {
    hide Run, Sane, InOrder, AllBytes, FromFrame, Fine, IntoFrame, ReadFrames, At, Carriable, Measured, GzipAsked;
    NewCarries(0);
    RunCarries(NewConn, steps, 0);
    var c := Run(NewConn, steps);
    var fs := Socket(c, z);
    forall i | 0 <= i < |c.wire|
      ensures Carriable(fs[i]) && Measured(fs[i]) && FromFrame(KindOf(c.wire[i]), fs[i]) == Parsed(c.wire[i])
    {
      assert !c.packed[i] && fs[i] == IntoFrame(c.wire[i]);
      FineCrosses(c.wire[i]);
    }
    StreamRoundTrip(fs, inp, pos);
  }

  lemma HelloPacked(z: bytes -> bytes)
    ensures var n := |z(BE(0, 4))| % TWO_16;
      n != 0 && n != 4 ==> FromFrame(HELLO, OnSocket(Hello(true, true, 0), true, z)) == Rejected(BadLength)
  {
  }

  /**
   * Where compression was asked for, the HELLO that acknowledges it is already compressed, and so is
   * everything behind it, and where it was not nothing is; and whatever
   * the compression does, a peer that reads without decompressing rejects it unless the compressed
   * zeros happen to take no or four bytes.
   */
  lemma AckIsCompressed(steps: seq<Step>, z: bytes -> bytes, i: nat)
    requires i < |Run(NewConn, steps).wire| && Run(NewConn, steps).wire[i].Hello?
    ensures var c := Run(NewConn, steps);
      var f, n := Socket(c, z)[i], |z(BE(0, 4))| % TWO_16;
      && i < |c.packed| && (c.packed[i] <==> GzipAsked(c.dispatched))
      && (forall j :: i < j < |c.packed| ==> (c.packed[j] <==> GzipAsked(c.dispatched)))
      && (GzipAsked(c.dispatched) && n != 0 && n != 4 ==> FromFrame(HELLO, f) == Rejected(BadLength))
  {
    hide Run, Sane, InOrder, AllBytes, GzipAsked, BE;
    NewCarries(0);
    RunCarries(NewConn, steps, 0);
    var c := Run(NewConn, steps);
    assert Tells(c, c.wire[i]);
    HelloPacked(z);
  }

  /** A HELLO without a payload that asks for compression. */
  const GzipHello: Frame := Frame(0, HELLO, 2, 0, [])

  lemma GzipDispatched(c: Conn)
    requires !c.configured
    ensures Dispatch(c, GzipHello) ==
      Ask(c.(dispatched := c.dispatched + [GzipHello], configured := true, compressing := true), Hello(true, true, 0), Loop, true)
  {
    assert FromFrame(HELLO, GzipHello) == Parsed(Hello(false, true, 0));
    hide FromFrame, Ask, Leave;
    DispatchIs(c, GzipHello);
  }

  lemma GzipAccepted()
    ensures GzipAsked([GzipHello])
  {
    assert Accepts(GzipHello);
    hide Accepts;
    GzipNext([], GzipHello);
    assert [] + [GzipHello] == [GzipHello];
  }

  /** It happens: a few steps after such a HELLO its answer is on the wire, compressed. */
  lemma GzipHappens()
    ensures var c := Run(NewConn, [Receive(GzipHello), DoDispatch] + ([Get(0), Push, DoEmit] + []));
      c.wire == [Hello(true, true, 0)] && c.packed == [true] && GzipAsked(c.dispatched)
  {
    var c1 := NewConn.(reader := Holding(GzipHello));
    GzipDispatched(c1);
    GzipAccepted();
    var c2 := After(c1, DoDispatch);
    assert c2.reader == Sending(Out(0, Hello(true, true, 0)), Loop, true) && c2.dispatched == [GzipHello];
    hide Run, Dispatch, GzipAsked;
    assert After(NewConn, Receive(GzipHello)) == c1;
    Farewells.Written(c2, 0, []);
    RunTwo(NewConn, Receive(GzipHello), DoDispatch, [Get(0), Push, DoEmit] + []);
    RunNone(Farewells.WrittenOut(c2, 0));
  }

  /** The payloads of the PING frames. */
  function PingsIn(fs: seq<Frame>): seq<bytes> {
    if fs == [] then [] else (if fs[0].kind == PING then [fs[0].payload] else []) + PingsIn(fs[1..])
  }

  lemma {:induction false} PingsUnpacked(ts: seq<Typed>, fs: seq<Frame>)
    requires |fs| == |ts| && forall i :: 0 <= i < |ts| ==> fs[i] == IntoFrame(ts[i])
    ensures PingsIn(fs) == Echoes(ts)
  {
    if ts != [] {
      PingsUnpacked(ts[1..], fs[1..]);
      PingFramed(ts[0]);
    }
  }

  lemma PingFramed(t: Typed)
    ensures (IntoFrame(t).kind == PING <==> t.Ping?) && (t.Ping? ==> IntoFrame(t).payload == t.payload)
  {
  }

  /**
   * Unless compression was asked for, the PING frames on the wire of any run carry, in order, the
   * payloads of the first PINGs that the peer sent after its HELLO.
   */
  lemma PingsOnTheWire(steps: seq<Step>, z: bytes -> bytes)
    requires !GzipAsked(Run(NewConn, steps).dispatched)
    ensures var c := Run(NewConn, steps);
      PingsIn(Socket(c, z)) <= Asked(c.dispatched)
  {
    hide Run, Sane, InOrder, IntoFrame, GzipAsked, Asked, PingsIn, Echoes, Legible;
    NewCarries(0);
    RunCarries(NewConn, steps, 0);
    PingsEchoed(steps);
    var c := Run(NewConn, steps);
    PingsUnpacked(c.wire, Socket(c, z));
  }
}
