/**
 * What a connection owes its peer in every run: each PING echoed in its turn, and every stream
 * cancelled when the peer says goodbye.
 */
module Duties {
  import opened Base
  import opened Readers
  import opened Streams
  import opened Frames
  import opened Connections
  import opened Handshake

  // PINGs.

  /** The payloads of the PINGs among the frames. */
  function Echoes(fs: seq<Typed>): seq<bytes> {
    if fs == [] then [] else (if fs[0].Ping? then [fs[0].payload] else []) + Echoes(fs[1..])
  }

  lemma {:induction false} EchoesConcat(a: seq<Typed>, b: seq<Typed>)
    ensures Echoes(a + b) == Echoes(a) + Echoes(b)
  {
    if a == [] {
      assert a + b == b;
    } else {
      assert (a + b)[1..] == a[1..] + b;
      EchoesConcat(a[1..], b);
    }
  }

  lemma EchoesOne(t: Typed)
    ensures Echoes([t]) == if t.Ping? then [t.payload] else []
  {
    assert [t][1..] == [];
  }

  function Saying(r: Reader): seq<Typed> { if r.Sending? then [r.out.frame] else [] }

  /** Everything written, queued and about to be queued. */
  function Pipe(c: Conn): seq<Typed> { c.wire + (Outbound(c.queue) + Saying(c.reader)) }

  /** A HELLO has been accepted among these frames. */
  ghost predicate Greeted(fs: seq<Frame>) {
    exists i :: 0 <= i < |fs| && fs[i].kind == HELLO && Accepts(fs[i])
  }

  /** What `f` asks to have echoed: the payload of a well-formed PING that is not an answer, after HELLO. */
  function Asks(greeted: bool, f: Frame): seq<bytes> {
    if greeted && f.kind == PING && Accepts(f) && f.flags / 4 % 2 == 0 then [f.payload] else []
  }

  ghost function Asked(fs: seq<Frame>): seq<bytes> {
    if fs == [] then []
    else
      var n := |fs| - 1;
      Asked(fs[..n]) + Asks(Greeted(fs[..n]), fs[n])
  }

  lemma AskedNext(fs: seq<Frame>, f: Frame)
    ensures Asked(fs + [f]) == Asked(fs) + Asks(Greeted(fs), f)
    ensures Greeted(fs + [f]) <==> Greeted(fs) || (f.kind == HELLO && Accepts(f))
  {
    hide Accepts;
    var gs := fs + [f];
    assert gs[..|fs|] == fs && gs[|fs|] == f;
    assert forall i :: 0 <= i < |fs| ==> gs[i] == fs[i];
  }

  /** The connection can still write. */
  predicate Sound(c: Conn) { c.running && !c.failed && !c.broken }

  ghost predicate Echoing(c: Conn) {
    && (c.configured <==> Greeted(c.dispatched))
    && (Sound(c) ==> Echoes(Pipe(c)) == Asked(c.dispatched))
    && Echoes(c.wire) <= Asked(c.dispatched)
  }

  /** Where the pipe moves from `c` to `d` without a PING being added. */
  ghost predicate Quiet(c: Conn, d: Conn) {
    && d.dispatched == c.dispatched && d.configured == c.configured
    && (Sound(d) ==> Sound(c) && Echoes(Pipe(d)) == Echoes(Pipe(c)))
    && (!Sound(c) ==> d.wire == c.wire)
  }

  lemma PipeEchoes(c: Conn)
    ensures Echoes(Pipe(c)) == Echoes(c.wire) + (Echoes(Outbound(c.queue)) + Echoes(Saying(c.reader)))
  {
    EchoesConcat(c.wire, Outbound(c.queue) + Saying(c.reader));
    EchoesConcat(Outbound(c.queue), Saying(c.reader));
  }

  lemma QuietKeeps(c: Conn, d: Conn)
    requires Echoing(c) && Quiet(c, d) && (Sound(c) && !Sound(d) ==> d.wire == c.wire)
    ensures Echoing(d)
  {
    hide Asked, Greeted, Echoes, Pipe;
    if Sound(d) {
      PipeEchoes(d);
    }
  }

  /** Taking the first frame off the queue and writing it leaves the pipe as it is. */
  lemma EmitQuiet(c: Conn)
    requires Enabled(c, DoEmit)
    ensures Quiet(c, After(c, DoEmit)) && (!Sound(c) ==> After(c, DoEmit).wire == c.wire)
    ensures Sound(After(c, DoEmit)) == Sound(c)
  {
    hide Dispatch, CancelOne, Echoes;
    var d, o := After(c, DoEmit), c.queue[0];
    if Sound(c) {
      assert Outbound(c.queue) == [o.frame] + Outbound(d.queue);
      assert Saying(d.reader) == Saying(c.reader);
      assert Pipe(d) == Pipe(c);
    }
  }

  lemma PushQuiet(c: Conn)
    requires Enabled(c, Push)
    ensures Quiet(c, After(c, Push)) && After(c, Push).wire == c.wire
  {
    hide Echoes;
    var d, o := After(c, Push), c.reader.out;
    AfterPush(c);
    hide After;
    if c.running {
      assert Outbound(d.queue) == Outbound(c.queue) + [o.frame];
      assert Pipe(d) == Pipe(c);
    }
  }

  lemma GetQuiet(c: Conn, slot: nat)
    requires Enabled(c, Get(slot))
    ensures Quiet(c, After(c, Get(slot))) && After(c, Get(slot)).wire == c.wire
  {
    hide Echoes;
    AfterGet(c, slot);
    hide After;
    assert Pipe(After(c, Get(slot))) == Pipe(c);
  }

  lemma QueueQuiet(c: Conn, id: nat, slot: nat)
    requires Enabled(c, Step.Queue(id, slot))
    ensures Quiet(c, After(c, Step.Queue(id, slot))) && After(c, Step.Queue(id, slot)).wire == c.wire
  {
    var d, t := After(c, Step.Queue(id, slot)), OnWire(id, c.streams[id].pending[0]);
    assert !t.Ping?;
    AfterQueue(c, id, slot);
    hide After, Echoes, OnWire;
    if c.running {
      assert Outbound(d.queue) == Outbound(c.queue) + [t];
      PipeEchoes(c);
      PipeEchoes(d);
      EchoesConcat(Outbound(c.queue), [t]);
      EchoesOne(t);
    }
  }

  /** A stream's reply, sent or not, adds no PING. */
  lemma ReplyQuiet(c: Conn, id: nat, r: Reply, next: Next)
    requires id in c.streams && (c.reader.Ready? || c.reader.Holding?)
    ensures var c' := Moved(c, id, r.ep);
      var d := if r.out == [] then c'.(reader := Ready(next)) else Ask(c', OnWire(id, r.out[0]), next, false);
      Echoes(Saying(d.reader)) == [] && d.wire == c.wire && d.queue == c.queue
  {
    if r.out != [] {
      StreamFrame(id, r.out[0]);
      EchoesOne(OnWire(id, r.out[0]));
    }
  }

  lemma CancelQuiet(c: Conn, id: nat)
    requires Enabled(c, CancelStream(id))
    ensures Quiet(c, After(c, CancelStream(id))) && After(c, CancelStream(id)).wire == c.wire
  {
    var code := c.reader.next.code;
    ReplyQuiet(c, id, ResetCall(c.streams[id].ep, code), Cancel(c.reader.next.todo - {id}, code));
    assert Echoes(Saying(c.reader)) == [];
    hide Dispatch, Echoes, ResetCall, Pipe, Saying, OnWire;
    PipeEchoes(c);
    PipeEchoes(After(c, CancelStream(id)));
  }

  lemma AskEcho(c: Conn, t: Typed, fatal: bool)
    ensures Echoes(Saying(Ask(c, t, Loop, fatal).reader)) == if t.Ping? then [t.payload] else []
  {
    EchoesOne(t);
  }

  lemma LeaveEcho(c: Conn)
    ensures Echoes(Saying(Leave(c).reader)) == []
  {
    EchoesOne(Farewell);
  }

  lemma RestEcho(c: Conn, next: Next)
    ensures Echoes(Saying(c.(reader := Ready(next)).reader)) == []
  {
  }

  /** What dispatch is about to say is the echo that the frame asks for, if any. */
  lemma ProcessEcho(c: Conn, t: Typed)
    requires c.reader.Holding?
    ensures Echoes(Saying(Process(c, t).reader)) == if c.configured && t.Ping? && !t.ack then [t.payload] else []
  {
    hide ToStream, Ask, Leave, Echoes, Saying;
    LeaveEcho(c);
    match t
    case Hello(_, gzip, _) => AskEcho(c.(configured := true, compressing := gzip), Hello(true, gzip, 0), true);
    case Ping(_, payload) =>
      RestEcho(c, Loop);
      AskEcho(c, Ping(true, payload), true);
    case GoAway(_, code, _) => RestEcho(c, Cancel(c.streams.Keys, code));
    case MakeStream(id) => RestEcho(c.(streams := c.streams[id := NewLine], serviced := c.serviced + [id]), Loop);
    case ResetStream(id, code) => ToStreamEcho(c, id, Packet.Reset(code));
    case DataFrame(id, endData, endStream, payload) => ToStreamEcho(c, id, Data(payload, endData, endStream));
  }

  lemma ToStreamEcho(c: Conn, id: nat, p: Packet)
    requires c.reader.Holding?
    ensures Echoes(Saying(ToStream(c, id, p).reader)) == []
  {
    hide Handle, OnWire;
    EchoesOne(ResetStream(id, PROTOCOL_ERROR));
    if id in c.streams {
      ReplyQuiet(c, id, Handle(c.streams[id].ep, p), Loop);
    }
  }

  lemma ParsedPing(f: Frame)
    requires Accepts(f)
    ensures var t := FromFrame(f.kind, f).typed;
      (t.Ping? <==> f.kind == PING) && (t.Ping? ==> t.payload == f.payload && (t.ack <==> f.flags / 4 % 2 == 1))
  {
  }

  lemma DispatchEcho(c: Conn, f: Frame)
    requires c.reader.Holding? && Measured(f)
    ensures Echoes(Saying(Dispatch(c, f).reader)) == Asks(c.configured, f)
  {
    var c' := c.(dispatched := c.dispatched + [f]);
    EchoesOne(Farewell);
    if f.kind <= DATA {
      MeasuredParses(f);
    }
    if Accepts(f) {
      ParsedPing(f);
      hide FromFrame, Process, Echoes, Saying;
      ProcessEcho(c', FromFrame(f.kind, f).typed);
    } else {
      hide FromFrame;
    }
  }

  lemma EchoingIf(c: Conn, d: Conn, more: seq<bytes>)
    requires Echoing(c) && Echoes(Saying(c.reader)) == [] && Echoes(Saying(d.reader)) == more
    requires d.wire == c.wire && d.queue == c.queue && Sound(d) == Sound(c)
    requires d.configured <==> Greeted(d.dispatched)
    requires Asked(d.dispatched) == Asked(c.dispatched) + more
    ensures Echoing(d)
  {
    hide Asked, Greeted, Echoes, Pipe, Saying;
    PipeEchoes(c);
    PipeEchoes(d);
  }

  lemma DispatchEchoing(c: Conn)
    requires Sane(c) && Echoing(c) && Enabled(c, DoDispatch)
    ensures Echoing(After(c, DoDispatch))
  {
    var f := c.reader.received;
    var d := After(c, DoDispatch);
    assert d == Dispatch(c, f);
    assert Echoes(Saying(c.reader)) == [];
    DispatchVerdict(c, f);
    DispatchEcho(c, f);
    AskedNext(c.dispatched, f);
    hide After, Dispatch, Asked, Greeted, Asks, Echoes, Pipe, Saying, Accepts;
    EchoingIf(c, d, Asks(c.configured, f));
  }

  lemma StepEchoing(c: Conn, s: Step)
    requires Sane(c) && Echoing(c) && Enabled(c, s)
    ensures Echoing(After(c, s))
  {
    var d := After(c, s);
    hide Dispatch, CancelOne, Echoing, Echoes, Called;
    match s
    case DoDispatch => DispatchEchoing(c);
    case DoEmit =>
      EmitQuiet(c);
      QuietKeeps(c, d);
    case Push =>
      PushQuiet(c);
      QuietKeeps(c, d);
    case Get(slot) =>
      GetQuiet(c, slot);
      QuietKeeps(c, d);
    case Queue(id, slot) =>
      QueueQuiet(c, id, slot);
      QuietKeeps(c, d);
    case CancelStream(id) =>
      CancelQuiet(c, id);
      QuietKeeps(c, d);
    case _ => QuietKeeps(c, d);
  }

  // Cancelling.

  /** The stream can send nothing more. */
  predicate Mute(e: Endpoint) { e.state.Send().Some? }

  lemma MuteStays(l: Line, call: Call)
    requires Mute(l.ep)
    ensures Mute(Called(l, call).ep)
  {
  }

  lemma ResetMutes(e: Endpoint, code: nat)
    ensures Mute(ResetCall(e, code).ep)
    ensures ResetCall(e, code).out == if Mute(e) then [] else [Packet.Reset(code)]
  {
  }

  function NextOf(r: Reader): Next { if r.Ready? || r.Sending? || r.Waiting? then r.next else Loop }

  /** While streams are being cancelled, those not still to be cancelled are mute. */
  predicate Cancelling(c: Conn) {
    var n := NextOf(c.reader);
    n.Cancel? ==> n.todo <= c.streams.Keys && forall id :: id in c.streams && id !in n.todo ==> Mute(c.streams[id].ep)
  }

  /** Dispatch leads back to the loop, or to the cancelling of all streams. */
  predicate Onward(c: Conn) {
    NextOf(c.reader) == Loop || (NextOf(c.reader).Cancel? && NextOf(c.reader).todo == c.streams.Keys)
  }

  lemma ToStreamNext(c: Conn, id: nat, p: Packet)
    ensures Onward(ToStream(c, id, p))
  {
    hide Handle, OnWire;
  }

  lemma LeaveNext(c: Conn)
    ensures Onward(Leave(c))
  {
  }

  lemma AskNext(c: Conn, t: Typed)
    ensures Onward(Ask(c, t, Loop, true))
  {
  }

  lemma RestNext(c: Conn, next: Next)
    requires next == Loop || (next.Cancel? && next.todo == c.streams.Keys)
    ensures Onward(c.(reader := Ready(next)))
  {
  }

  lemma ProcessNext(c: Conn, t: Typed)
    ensures Onward(Process(c, t))
  {
    hide ToStream, Leave, Ask, Onward;
    LeaveNext(c);
    match t
    case Hello(_, gzip, _) => AskNext(c.(configured := true, compressing := gzip), Hello(true, gzip, 0));
    case Ping(_, payload) =>
      RestNext(c, Loop);
      AskNext(c, Ping(true, payload));
    case GoAway(_, code, _) => RestNext(c, Cancel(c.streams.Keys, code));
    case MakeStream(id) => RestNext(c.(streams := c.streams[id := NewLine], serviced := c.serviced + [id]), Loop);
    case ResetStream(id, code) => ToStreamNext(c, id, Packet.Reset(code));
    case DataFrame(id, endData, endStream, payload) => ToStreamNext(c, id, Data(payload, endData, endStream));
  }

  lemma OnwardCancels(c: Conn)
    requires Onward(c)
    ensures Cancelling(c)
  {
    hide Mute;
  }

  lemma DispatchCancelling(c: Conn, f: Frame)
    requires Sane(c) && c.reader.Holding? && f == c.reader.received
    ensures Cancelling(Dispatch(c, f))
  {
    assert Measured(f);
    hide FromFrame, Process, Leave, Mute, Dispatch, Onward, Cancelling, Sane;
    var c' := c.(dispatched := c.dispatched + [f]);
    DispatchIs(c, f);
    LeaveNext(c');
    OnwardCancels(Leave(c'));
    if f.kind <= DATA {
      MeasuredParses(f);
      if FromFrame(f.kind, f).Parsed? {
        ProcessNext(c', FromFrame(f.kind, f).typed);
        OnwardCancels(Process(c', FromFrame(f.kind, f).typed));
      }
    }
  }

  lemma CancelMoves(c: Conn, id: nat)
    requires Enabled(c, CancelStream(id))
    ensures var r, d := ResetCall(c.streams[id].ep, c.reader.next.code), After(c, CancelStream(id));
      && d.streams == c.streams[id := c.streams[id].(ep := r.ep)]
      && NextOf(d.reader) == Cancel(c.reader.next.todo - {id}, c.reader.next.code)
      && Saying(d.reader) == if r.out == [] then [] else [OnWire(id, r.out[0])]
  {
    hide ResetCall, OnWire;
    assert After(c, CancelStream(id)) == CancelOne(c, c.reader.next.todo, c.reader.next.code, id);
    hide After;
  }

  /** One stream cancelled: it is mute, and if it could still send the frame that says so follows, with the peer's code. */
  lemma CancelOneCancels(c: Conn, id: nat)
    requires Cancelling(c) && Enabled(c, CancelStream(id))
    ensures var d := After(c, CancelStream(id));
      && Cancelling(d)
      && d.streams.Keys == c.streams.Keys && Mute(d.streams[id].ep)
      && (forall j :: j in c.streams && j != id ==> d.streams[j] == c.streams[j])
      && NextOf(d.reader) == Cancel(c.reader.next.todo - {id}, c.reader.next.code)
      && Saying(d.reader) == if Mute(c.streams[id].ep) then [] else [ResetStream(id, c.reader.next.code)]
  {
    var r := ResetCall(c.streams[id].ep, c.reader.next.code);
    ResetMutes(c.streams[id].ep, c.reader.next.code);
    CancelMoves(c, id);
    hide ResetCall, Mute, After;
    var d := After(c, CancelStream(id));
    assert d.streams.Keys == c.streams.Keys;
  }

  lemma InvokeCancelling(c: Conn, id: nat, call: Call)
    requires Cancelling(c) && Enabled(c, Invoke(id, call))
    ensures Cancelling(After(c, Invoke(id, call)))
  {
    if Mute(c.streams[id].ep) {
      MuteStays(c.streams[id], call);
    }
    hide Called, Mute, Dispatch, CancelOne;
  }

  lemma QueueCancelling(c: Conn, id: nat, slot: nat)
    requires Cancelling(c) && Enabled(c, Step.Queue(id, slot))
    ensures Cancelling(After(c, Step.Queue(id, slot)))
  {
    AfterQueue(c, id, slot);
    hide After, Mute, OnWire;
  }

  /** Nothing but the reader's place in its loop has changed, if that. */
  lemma SameCancelling(c: Conn, d: Conn)
    requires Cancelling(c) && d.streams == c.streams && (NextOf(d.reader) == NextOf(c.reader) || NextOf(d.reader) == Loop)
    ensures Cancelling(d)
  {
    hide Mute, NextOf;
  }

  lemma EmitNext(c: Conn)
    requires c.queue != []
    ensures Emit(c).streams == c.streams && (NextOf(Emit(c).reader) == NextOf(c.reader) || NextOf(Emit(c).reader) == Loop)
  {
  }

  lemma OtherCancelling(c: Conn, s: Step)
    requires Enabled(c, s) && !s.DoDispatch? && !s.CancelStream? && !s.Invoke? && !s.Queue?
    ensures var d := After(c, s);
      d.streams == c.streams && (NextOf(d.reader) == NextOf(c.reader) || NextOf(d.reader) == Loop)
  {
    if s.Get? {
      AfterGet(c, s.slot);
      hide After, Enabled;
    } else if s.Push? {
      AfterPush(c);
      hide After, Enabled;
    } else if s.DoEmit? {
      AfterEmit(c);
      EmitNext(c);
      hide After, Enabled, Emit;
    } else if s.DoCheck? {
      AfterCheck(c);
      hide After, Enabled;
    } else {
      PlainCancelling(c, s);
      hide After, Enabled;
    }
  }

  lemma PlainCancelling(c: Conn, s: Step)
    requires Enabled(c, s)
    requires s.Receive? || s.CancelDone? || s.ReadFails? || s.Terminate? || s.Exit? || s.Borrow? || s.Break?
    ensures var d := After(c, s);
      d.streams == c.streams && (NextOf(d.reader) == NextOf(c.reader) || NextOf(d.reader) == Loop)
  {
    hide Dispatch, CancelOne, Called, OnWire, Free, Shown, Emit, Check, Enqueue;
  }

  lemma StepCancelling(c: Conn, s: Step)
    requires Sane(c) && Cancelling(c) && Enabled(c, s)
    ensures Cancelling(After(c, s))
  {
    hide Cancelling, Sane;
    if s.DoDispatch? {
      DispatchCancelling(c, c.reader.received);
      hide Dispatch;
    } else if s.CancelStream? {
      CancelOneCancels(c, s.id);
      hide After;
    } else if s.Invoke? {
      InvokeCancelling(c, s.id, s.call);
      hide After;
    } else if s.Queue? {
      QueueCancelling(c, s.id, s.slot);
      hide After;
    } else {
      OtherCancelling(c, s);
      hide After;
      SameCancelling(c, After(c, s));
    }
  }

  // Whole runs.

  ghost predicate Dutiful(c: Conn) { Sane(c) && Echoing(c) && Cancelling(c) }

  lemma {:induction false} RunDutiful(c: Conn, steps: seq<Step>)
    requires Dutiful(c)
    ensures Dutiful(Run(c, steps))
    decreases |steps|
  {
    hide Sane, Echoing, Cancelling, After, Enabled;
    if steps != [] {
      var s := steps[0];
      if Enabled(c, s) {
        StepSane(c, s);
        StepEchoing(c, s);
        StepCancelling(c, s);
      }
      RunDutiful(if Enabled(c, s) then After(c, s) else c, steps[1..]);
    }
  }

  lemma NewDutiful()
    ensures Dutiful(NewConn)
  {
  }

  /**
   * In every run the PINGs given to the wire are, in order and payload for payload, answers to the
   * first PINGs that the peer sent after its HELLO; and while the connection can write, those not yet
   * given to it are on their way.
   */
  lemma PingsEchoed(steps: seq<Step>)
    ensures var c := Run(NewConn, steps);
      && Echoes(c.wire) <= Asked(c.dispatched)
      && (Sound(c) ==> Echoes(Pipe(c)) == Asked(c.dispatched))
  {
    hide Run, Sane, Cancelling;
    NewDutiful();
    RunDutiful(NewConn, steps);
  }

  /**
   * When the peer has said goodbye, the connection goes through all of its streams without ever being
   * stuck for one, and by the time it is done none of them can send.
   */
  lemma GoodbyeCancelsAll(steps: seq<Step>)
    ensures var c := Run(NewConn, steps);
      && (Enabled(c, CancelDone) ==> forall id :: id in c.streams ==> Mute(c.streams[id].ep))
      && (!c.panicked && c.reader.Ready? && c.reader.next.Cancel? ==>
            forall id :: id in c.reader.next.todo ==> Enabled(c, CancelStream(id)))
  {
    hide Run, Sane, Echoing, Mute;
    NewDutiful();
    RunDutiful(NewConn, steps);
  }
}
