/** What a connection does with the frames it is sent, told by the frames alone. */
module Inbound {
  import opened Base
  import opened Readers
  import opened Blocks
  import opened Streams
  import opened Frames
  import opened Connections
  import opened Handshake
  import opened Duties
  import opened Transport
  import Formats

  // One frame.

  function Number(f: Frame, at: nat): nat { if at + 4 <= |f.payload| then FromBE(f.payload[at..at + 4]) else 0 }

  /**
   * Where dispatch leaves the reader: saying one frame before it goes on - or ends the connection, if it
   * depends on that frame and cannot write it - or going on at once.
   */
  datatype Answer = Says(frame: Typed, depends: bool) | GoesOn(next: Next)

  function AnswerOf(r: Reader): Option<Answer> {
    if r.Sending? && r.next == Loop then Some(Says(r.out.frame, r.fatal)) else if r.Ready? then Some(GoesOn(r.next)) else None
  }

  /** What a packet for stream `id` is answered with. */
  function StreamAnswer(c: Conn, id: nat, data: bool): Answer {
    if id !in c.streams then Says(ResetStream(id, 1), false)
    else
      var s := c.streams[id].ep.state;
      if s.err.Some? || s.code == Closed || (data && s.code == HalfRemote) then Says(ResetStream(id, 3), false) else GoesOn(Loop)
  }

  lemma AskSays(c: Conn, t: Typed, fatal: bool)
    ensures AnswerOf(Ask(c, t, Loop, fatal).reader) == Some(Says(t, fatal))
  {
  }

  lemma RestGoes(c: Conn, next: Next)
    ensures AnswerOf(c.(reader := Ready(next)).reader) == Some(GoesOn(next))
  {
  }

  lemma HandleAnswers(e: Endpoint, p: Packet)
    ensures var s := e.state;
      Handle(e, p).out ==
        if s.err.Some? || s.code == Closed || (p.Data? && s.code == HalfRemote) then [Packet.Reset(3)] else []
  {
    hide Enqueued;
  }

  lemma ToStreamAnswers(c: Conn, id: nat, p: Packet)
    ensures AnswerOf(ToStream(c, id, p).reader) == Some(StreamAnswer(c, id, p.Data?))
  {
    hide Handle, AnswerOf, Ask, Moved;
    if id in c.streams {
      HandleAnswers(c.streams[id].ep, p);
      var r := Handle(c.streams[id].ep, p);
      RestGoes(Moved(c, id, r.ep), Loop);
      AskSays(Moved(c, id, r.ep), ResetStream(id, 3), false);
    } else {
      AskSays(c, ResetStream(id, 1), false);
    }
  }

  lemma ProcessAnswers(c: Conn, t: Typed)
    requires !(t.Hello? <==> c.configured) && !(t.MakeStream? && t.id in c.streams)
    ensures AnswerOf(Process(c, t).reader) == Some(match t
      case Hello(_, gzip, _) => Says(Hello(true, gzip, 0), true)
      case Ping(ack, payload) => if ack then GoesOn(Loop) else Says(Ping(true, payload), true)
      case GoAway(_, code, _) => GoesOn(Cancel(c.streams.Keys, code))
      case MakeStream(_) => GoesOn(Loop)
      case ResetStream(id, _) => StreamAnswer(c, id, false)
      case DataFrame(id, _, _, _) => StreamAnswer(c, id, true))
  {
    hide ToStream, Ask, AnswerOf, StreamAnswer, Leave;
    match t
    case Hello(_, gzip, _) => AskSays(c.(configured := true, compressing := gzip), Hello(true, gzip, 0), true);
    case Ping(_, payload) =>
      RestGoes(c, Loop);
      AskSays(c, Ping(true, payload), true);
    case GoAway(_, code, _) => RestGoes(c, Cancel(c.streams.Keys, code));
    case MakeStream(id) => RestGoes(c.(streams := c.streams[id := NewLine], serviced := c.serviced + [id]), Loop);
    case ResetStream(id, code) => ToStreamAnswers(c, id, Packet.Reset(code));
    case DataFrame(id, endData, endStream, payload) => ToStreamAnswers(c, id, Data(payload, endData, endStream));
  }

  /**
   * How every frame is answered, by its kind and flags: a frame that breaks the rules by the farewell,
   * which is also what the connection then terminates after; HELLO by HELLO, PING by its echo; a frame
   * for a stream that there is not, or that will not have it, by RESET_STREAM; the others by nothing,
   * except that GOAWAY leads to the cancelling of all streams with its code.
   */
  lemma DispatchAnswers(c: Conn, f: Frame)
    requires Measured(f)
    ensures var d := Dispatch(c, f);
      AnswerOf(d.reader) == Some(
        if Violates(c, f) then Says(GoAway(0, 1, []), false)
        else match f.kind
          case 0 => Says(Hello(true, f.flags / 2 % 2 == 1, 0), true)
          case 1 => if f.flags / 4 % 2 == 1 then GoesOn(Loop) else Says(Ping(true, f.payload), true)
          case 2 => GoesOn(Cancel(c.streams.Keys, Number(f, 4)))
          case 3 => GoesOn(Loop)
          case 4 => StreamAnswer(c, f.streamID, false)
          case _ => StreamAnswer(c, f.streamID, true))
    ensures Violates(c, f) ==>
      var d := Dispatch(c, f); d.reader.Sending? && d.terminateAfter == Some(d.reader.out.ticket)
    ensures !Violates(c, f) ==> Dispatch(c, f).terminateAfter == c.terminateAfter
  {
    var c' := c.(dispatched := c.dispatched + [f]);
    if f.kind <= DATA {
      MeasuredParses(f);
    }
    if Accepts(f) {
      ParsedKind(f);
      Formats.FlagsFormat(f);
      KindIs(FromFrame(f.kind, f).typed);
    }
    DispatchIs(c, f);
    LeaveSays(c');
    hide Dispatch, FromFrame, Process, Leave, AnswerOf, FromBE;
    if !Violates(c, f) {
      var t := FromFrame(f.kind, f).typed;
      ProcessAnswers(c', t);
      SameAnswers(c, c', f.streamID);
      ProcessMark(c', t);
    } else if Accepts(f) {
      ProcessLeaves(c', FromFrame(f.kind, f).typed);
    }
  }

  lemma LeaveSays(c: Conn)
    ensures AnswerOf(Leave(c).reader) == Some(Says(GoAway(0, 1, []), false))
    ensures Leave(c).reader.Sending? && Leave(c).terminateAfter == Some(Leave(c).reader.out.ticket)
  {
  }

  lemma SameAnswers(c: Conn, c': Conn, id: nat)
    requires c'.streams == c.streams
    ensures StreamAnswer(c', id, true) == StreamAnswer(c, id, true) && StreamAnswer(c', id, false) == StreamAnswer(c, id, false)
  {
  }

  lemma ProcessLeaves(c: Conn, t: Typed)
    requires (t.Hello? <==> c.configured) || (t.MakeStream? && t.id in c.streams)
    ensures Process(c, t) == Leave(c)
  {
    hide Leave, Ask, ToStream;
  }

  lemma ProcessMark(c: Conn, t: Typed)
    requires !(t.Hello? <==> c.configured) && !(t.MakeStream? && t.id in c.streams)
    ensures Process(c, t).terminateAfter == c.terminateAfter
  {
    hide ToStream, Leave;
    match t
    case ResetStream(id, code) => ToStreamMark(c, id, Packet.Reset(code));
    case DataFrame(id, endData, endStream, payload) => ToStreamMark(c, id, Data(payload, endData, endStream));
    case _ =>
  }

  lemma AskMark(c: Conn, t: Typed)
    ensures Ask(c, t, Loop, false).terminateAfter == c.terminateAfter
  {
  }

  lemma MovedMark(c: Conn, id: nat, e: Endpoint)
    requires id in c.streams
    ensures Moved(c, id, e).terminateAfter == c.terminateAfter
  {
  }

  lemma ToStreamMark(c: Conn, id: nat, p: Packet)
    ensures ToStream(c, id, p).terminateAfter == c.terminateAfter
  {
    hide Handle, OnWire, Ask, Moved;
    if id in c.streams {
      var r := Handle(c.streams[id].ep, p);
      MovedMark(c, id, r.ep);
      if r.out != [] {
        AskMark(Moved(c, id, r.ep), OnWire(id, r.out[0]));
      }
    } else {
      AskMark(c, ResetStream(id, PROTOCOL_ERROR));
    }
  }

  // All the frames for one stream.

  /**
   * What the frames so far tell of a stream: not made yet; alive, with the bytes it was sent; ended by
   * its peer; or reset by its peer, with the code.
   */
  datatype Story = Unborn | Alive(got: bytes) | Ended(got: bytes) | Cut(got: bytes, code: nat)

  function Turn(s: Story, greeted: bool, f: Frame, id: nat): Story {
    if !greeted || !Accepts(f) || f.streamID != id then s
    else
      match f.kind
      case 3 => if s.Unborn? then Alive([]) else s
      case 4 => if s.Alive? || s.Ended? then Cut(s.got, Number(f, 0)) else s
      case 5 => if !s.Alive? then s else if f.flags % 2 == 1 then Ended(s.got + f.payload) else Alive(s.got + f.payload)
      case _ => s
  }

  ghost function Tale(fs: seq<Frame>, id: nat): Story {
    if fs == [] then Unborn
    else
      var n := |fs| - 1;
      Turn(Tale(fs[..n], id), Greeted(fs[..n]), fs[n], id)
  }

  lemma TaleNext(fs: seq<Frame>, f: Frame, id: nat)
    ensures Tale(fs + [f], id) == Turn(Tale(fs, id), Greeted(fs), f, id)
  {
    var gs := fs + [f];
    assert gs[..|fs|] == fs && gs[|fs|] == f;
  }

  /** All that the stream's reader has accepted, read or not. */
  function Got(l: Line): bytes { l.read + Held(l.ep.reader) }

  /** The stream was reset by its own side. */
  predicate Quit(l: Line) { l.ep.reader.closed && l.ep.state.err.None? }

  /** The stream is as the story says; what it has itself done about it can only cut the bytes short. */
  ghost predicate Matches(l: Line, s: Story) {
    var st := l.ep.state;
    && !s.Unborn? && NonEmpty(l.ep.reader.blocks)
    && Got(l) <= s.got && (!Quit(l) ==> Got(l) == s.got)
    && (l.ep.reader.closed ==> st.code == Closed)
    && (st.err.Some? ==> l.ep.reader.closed && s.Cut? && st.err == Some(StreamReset(s.code)))
    && (s.Alive? ==> Quit(l) || st.code == Open || st.code == HalfLocal)
    && (s.Ended? ==> st.code == HalfRemote || st.code == Closed)
    && (s.Cut? ==> st.code == Closed)
  }

  lemma NewMatches()
    ensures Matches(NewLine, Alive([]))
  {
  }

  lemma DataMatches(l: Line, s: Story, payload: bytes, endStream: bool)
    requires Matches(l, s)
    ensures var s' := if !s.Alive? then s else if endStream then Ended(s.got + payload) else Alive(s.got + payload);
      Matches(l.(ep := HandleData(l.ep, payload, endStream).ep), s')
  {
    hide Held;
    EnqueueAppends(l.ep.reader, payload);
    var h := Held(l.ep.reader);
    assert l.read + (h + payload) == (l.read + h) + payload;
    hide Enqueued, NonEmpty;
    assert Enqueued(l.ep.reader, payload).closed == l.ep.reader.closed by { EnqueuedOpen(l.ep.reader, payload); }
  }

  lemma EnqueuedOpen(q: Queue, data: bytes)
    ensures Enqueued(q, data).closed == q.closed
  {
  }

  lemma ResetMatches(l: Line, s: Story, code: nat)
    requires Matches(l, s)
    ensures var s' := if s.Alive? || s.Ended? then Cut(s.got, code) else s;
      Matches(l.(ep := HandleReset(l.ep, code).ep), s')
  {
    hide NonEmpty;
    SameHeld(l.ep.reader);
    hide Held;
  }

  lemma SameHeld(q: Queue)
    ensures Held(q.(closed := true)) == Held(q)
  {
  }

  lemma CallMatches(l: Line, s: Story, call: Call)
    requires Matches(l, s)
    ensures Matches(Called(l, call), s)
  {
    hide Held, Segments, Take, TakeOutcome, NonEmpty;
    SameHeld(l.ep.reader);
    match call
    case CallRead(n) =>
      TakeConserves(l.ep.reader, n);
      assert l.read + [] == l.read;
      var o := TakeOutcome(l.ep.reader, n);
      if o.Got? {
        var rest := Held(Take(l.ep.reader, n));
        assert (l.read + o.bs) + rest == l.read + (o.bs + rest);
      }
    case _ =>
      assert l.read + [] == l.read;
  }

  lemma QuitMatches(l: Line, s: Story, code: nat)
    requires Matches(l, s)
    ensures Matches(l.(ep := ResetCall(l.ep, code).ep), s)
  {
    hide NonEmpty;
    SameHeld(l.ep.reader);
    hide Held;
  }

  // In every run.

  ghost predicate Told(c: Conn, id: nat) {
    && (c.configured <==> Greeted(c.dispatched))
    && (id in c.streams <==> !Tale(c.dispatched, id).Unborn?)
    && (id in c.streams ==> Matches(c.streams[id], Tale(c.dispatched, id)))
  }

  lemma ToStreamReaches(c: Conn, j: nat, p: Packet, id: nat)
    ensures var d := ToStream(c, j, p);
      && (id in d.streams <==> id in c.streams)
      && (id in c.streams ==> d.streams[id] == if id == j then c.streams[id].(ep := Handle(c.streams[id].ep, p).ep) else c.streams[id])
  {
    ToStreamMoves(c, j, p);
    hide ToStream, Handle;
  }

  lemma ProcessReaches(c: Conn, t: Typed, id: nat)
    requires !(t.Hello? <==> c.configured) && !(t.MakeStream? && t.id in c.streams)
    ensures var d := Process(c, t);
      match t
      case MakeStream(j) => d.streams == c.streams[j := NewLine]
      case ResetStream(j, code) =>
        && (id in d.streams <==> id in c.streams)
        && (id in c.streams ==>
              d.streams[id] == if id == j then c.streams[id].(ep := HandleReset(c.streams[id].ep, code).ep) else c.streams[id])
      case DataFrame(j, _, endStream, payload) =>
        && (id in d.streams <==> id in c.streams)
        && (id in c.streams ==>
              d.streams[id] == if id == j then c.streams[id].(ep := HandleData(c.streams[id].ep, payload, endStream).ep) else c.streams[id])
      case _ => d.streams == c.streams
  {
    hide ToStream, Leave, HandleData, HandleReset;
    match t
    case ResetStream(j, code) => ToStreamReaches(c, j, Packet.Reset(code), id);
    case DataFrame(j, endData, endStream, payload) => ToStreamReaches(c, j, Data(payload, endData, endStream), id);
    case _ =>
  }

  /** A frame that breaks the rules changes no stream, and no story. */
  lemma ViolationTold(c: Conn, f: Frame, id: nat)
    requires Told(c, id) && Measured(f) && Violates(c, f)
    ensures Dispatch(c, f).streams == c.streams
    ensures Turn(Tale(c.dispatched, id), Greeted(c.dispatched), f, id) == Tale(c.dispatched, id)
  {
    var c' := c.(dispatched := c.dispatched + [f]);
    if f.kind <= DATA {
      MeasuredParses(f);
    }
    if Accepts(f) {
      ParsedKind(f);
      KindIs(FromFrame(f.kind, f).typed);
    }
    DispatchIs(c, f);
    LeaveStreams(c');
    hide Dispatch, FromFrame, Process, Leave, Matches, Tale, Greeted;
    if Accepts(f) {
      ProcessLeaves(c', FromFrame(f.kind, f).typed);
    }
  }

  lemma LeaveStreams(c: Conn)
    ensures Leave(c).streams == c.streams
  {
  }

  /** The stream's line and its story agree after the frame. */
  ghost predicate Agree(lines: map<nat, Line>, s: Story, id: nat) {
    (id in lines <==> !s.Unborn?) && (id in lines ==> Matches(lines[id], s))
  }

  lemma DataTold(lines: map<nat, Line>, after: map<nat, Line>, s: Story, f: Frame, id: nat)
    requires Agree(lines, s, id) && Accepts(f) && f.kind == 5
    requires (id in after <==> id in lines)
    requires id in lines ==>
      after[id] == if id == f.streamID then lines[id].(ep := HandleData(lines[id].ep, f.payload, f.flags % 2 == 1).ep) else lines[id]
    ensures Agree(after, Turn(s, true, f, id), id)
  {
    hide Accepts, HandleData, Matches;
    if id in lines {
      DataMatches(lines[id], s, f.payload, f.flags % 2 == 1);
    }
  }

  lemma ResetTold(lines: map<nat, Line>, after: map<nat, Line>, s: Story, f: Frame, id: nat)
    requires Agree(lines, s, id) && Accepts(f) && f.kind == 4
    requires (id in after <==> id in lines)
    requires id in lines ==>
      after[id] == if id == f.streamID then lines[id].(ep := HandleReset(lines[id].ep, Number(f, 0)).ep) else lines[id]
    ensures Agree(after, Turn(s, true, f, id), id)
  {
    hide Accepts, HandleReset, Matches, Number;
    if id in lines {
      ResetMatches(lines[id], s, Number(f, 0));
    }
  }

  lemma MakeTold(lines: map<nat, Line>, s: Story, f: Frame, id: nat)
    requires Agree(lines, s, id) && Accepts(f) && f.kind == 3 && f.streamID !in lines
    ensures Agree(lines[f.streamID := NewLine], Turn(s, true, f, id), id)
  {
    hide Accepts, Matches;
    NewMatches();
  }

  lemma OtherTold(lines: map<nat, Line>, s: Story, greeted: bool, f: Frame, id: nat)
    requires Agree(lines, s, id) && (f.kind < 3 || !greeted)
    ensures Agree(lines, Turn(s, greeted, f, id), id)
  {
    hide Accepts, Matches;
  }

  /** What dispatch of a frame that keeps the rules does to the streams, by its kind. */
  lemma DispatchReaches(c: Conn, f: Frame, id: nat)
    requires Measured(f) && !Violates(c, f)
    ensures var d, lines := Dispatch(c, f).streams, c.streams;
      match f.kind
      case 3 => d == lines[f.streamID := NewLine]
      case 4 =>
        && (id in d <==> id in lines)
        && (id in lines ==> d[id] == if id == f.streamID then lines[id].(ep := HandleReset(lines[id].ep, Number(f, 0)).ep) else lines[id])
      case 5 =>
        && (id in d <==> id in lines)
        && (id in lines ==>
              d[id] == if id == f.streamID then lines[id].(ep := HandleData(lines[id].ep, f.payload, f.flags % 2 == 1).ep) else lines[id])
      case _ => d == lines
  {
    var c' := c.(dispatched := c.dispatched + [f]);
    MeasuredParses(f);
    ParsedKind(f);
    Formats.FlagsFormat(f);
    KindIs(FromFrame(f.kind, f).typed);
    DispatchIs(c, f);
    hide Dispatch, FromFrame, Process, Leave, FromBE, HandleData, HandleReset;
    ProcessReaches(c', FromFrame(f.kind, f).typed, id);
  }

  /** Any other frame does to the stream what it does to its story. */
  lemma FrameTold(c: Conn, f: Frame, id: nat)
    requires Told(c, id) && Measured(f) && !Violates(c, f)
    ensures var s, d := Turn(Tale(c.dispatched, id), Greeted(c.dispatched), f, id), Dispatch(c, f);
      Agree(d.streams, s, id)
  {
    hide Dispatch, Matches, Tale, Greeted, HandleData, HandleReset, Accepts, Turn, Number;
    var s, d := Tale(c.dispatched, id), Dispatch(c, f).streams;
    DispatchReaches(c, f, id);
    if f.kind == 3 {
      MakeTold(c.streams, s, f, id);
    } else if f.kind == 4 {
      ResetTold(c.streams, d, s, f, id);
    } else if f.kind == 5 {
      DataTold(c.streams, d, s, f, id);
    } else {
      AcceptedKind(f);
      OtherTold(c.streams, s, Greeted(c.dispatched), f, id);
    }
  }

  lemma AcceptedKind(f: Frame)
    requires Accepts(f)
    ensures f.kind <= 5
  {
  }

  lemma DispatchTold(c: Conn, id: nat)
    requires Sane(c) && Told(c, id) && Enabled(c, DoDispatch)
    ensures Told(After(c, DoDispatch), id)
  {
    var f := c.reader.received;
    assert After(c, DoDispatch) == Dispatch(c, f);
    DispatchVerdict(c, f);
    AskedNext(c.dispatched, f);
    TaleNext(c.dispatched, f, id);
    if Violates(c, f) {
      ViolationTold(c, f, id);
    } else {
      FrameTold(c, f, id);
    }
    hide After, Enabled, Dispatch, Matches, Tale, Turn, Greeted, Accepts;
  }

  lemma SameTold(c: Conn, d: Conn, id: nat)
    requires Told(c, id) && d.dispatched == c.dispatched && d.configured == c.configured
    requires id in d.streams <==> id in c.streams
    requires id in c.streams ==> Matches(d.streams[id], Tale(c.dispatched, id))
    ensures Told(d, id)
  {
    hide Matches, Tale, Greeted;
  }

  lemma SameLines(l: Line, l': Line, s: Story)
    requires Matches(l, s) && l'.ep == l.ep && l'.read == l.read
    ensures Matches(l', s)
  {
    hide Blocks.Held, NonEmpty;
  }

  lemma QueueTold(c: Conn, j: nat, slot: nat, id: nat)
    requires Told(c, id) && Enabled(c, Step.Queue(j, slot))
    ensures Told(After(c, Step.Queue(j, slot)), id)
  {
    AfterQueue(c, j, slot);
    StepIdles(c, Step.Queue(j, slot));
    var d := After(c, Step.Queue(j, slot));
    hide After, Enabled, OnWire, Matches, Tale, Greeted, Load;
    if id in c.streams {
      SameLines(c.streams[id], d.streams[id], Tale(c.dispatched, id));
    }
    SameTold(c, d, id);
  }

  lemma InvokeTold(c: Conn, j: nat, call: Call, id: nat)
    requires Told(c, id) && Enabled(c, Invoke(j, call))
    ensures Told(After(c, Invoke(j, call)), id)
  {
    var d := After(c, Invoke(j, call));
    assert d == c.(streams := c.streams[j := Called(c.streams[j], call)]);
    hide After, Enabled, Matches, Tale, Greeted, Called;
    if id == j {
      CallMatches(c.streams[id], Tale(c.dispatched, id), call);
    }
    SameTold(c, d, id);
  }

  lemma CancelTold(c: Conn, j: nat, id: nat)
    requires Told(c, id) && Enabled(c, CancelStream(j))
    ensures Told(After(c, CancelStream(j)), id)
  {
    var d, code := After(c, CancelStream(j)), c.reader.next.code;
    CancelMoves(c, j);
    CancelIdles(c, j);
    hide After, Enabled, Matches, Tale, Greeted, ResetCall;
    if id == j {
      QuitMatches(c.streams[id], Tale(c.dispatched, id), code);
    }
    SameTold(c, d, id);
  }

  lemma StepTold(c: Conn, s: Step, id: nat)
    requires Sane(c) && Told(c, id) && Enabled(c, s)
    ensures Told(After(c, s), id)
  {
    hide Told, Sane;
    if s.DoDispatch? {
      DispatchTold(c, id);
    } else if s.Queue? {
      QueueTold(c, s.id, s.slot, id);
    } else if s.Invoke? {
      InvokeTold(c, s.id, s.call, id);
    } else if s.CancelStream? {
      CancelTold(c, s.id, id);
    } else {
      OtherCancelling(c, s);
      StepIdles(c, s);
      hide After, Enabled, Load;
      TheSame(c, After(c, s), id);
    }
    hide After, Enabled;
  }

  lemma TheSame(c: Conn, d: Conn, id: nat)
    requires Told(c, id) && d.dispatched == c.dispatched && d.configured == c.configured && d.streams == c.streams
    ensures Told(d, id)
  {
    hide Matches, Tale, Greeted;
  }

  lemma {:induction false} RunTold(c: Conn, steps: seq<Step>, id: nat)
    requires Sane(c) && Told(c, id)
    ensures Told(Run(c, steps), id)
    decreases |steps|
  {
    hide Sane, Told, After, Enabled;
    if steps != [] {
      if Enabled(c, steps[0]) {
        StepSane(c, steps[0]);
        StepTold(c, steps[0], id);
      }
      RunTold(if Enabled(c, steps[0]) then After(c, steps[0]) else c, steps[1..], id);
    }
  }

  /**
   * In every run, each stream is what the frames it was sent say. It is registered if and only if it was
   * made; what its reader has accepted is, unless its own side reset it, exactly the payloads of its
   * DATA frames in order, up to the one that ends it or the first RESET_STREAM, and never anything else;
   * it takes DATA as long as neither has come; an error is the code of that reset.
   */
  lemma FramesReachTheirStreams(steps: seq<Step>, id: nat)
    ensures var c := Run(NewConn, steps);
      var s := Tale(c.dispatched, id);
      && (id in c.streams <==> !s.Unborn?)
      && (id in c.streams ==>
            var l := c.streams[id];
            && Got(l) <= s.got && (!Quit(l) ==> Got(l) == s.got)
            && (!Quit(l) ==> (l.ep.state.RecvData().None? <==> s.Alive?))
            && (s.Cut? ==> l.ep.state.code == Closed)
            && (l.ep.state.err.Some? ==> s.Cut? && l.ep.state.err == Some(StreamReset(s.code))))
  {
    hide Run, Tale, Greeted, NonEmpty, Blocks.Held;
    NewSane();
    NewTold(id);
    RunTold(NewConn, steps, id);
  }

  lemma NewTold(id: nat)
    ensures Told(NewConn, id)
  {
  }

  lemma NewSane()
    ensures Sane(NewConn)
  {
  }

  // Goodbye.

  /** The reader is on its way out. */
  predicate Leaving(r: Reader) { r.Ending? || r.Stopped? || NextOf(r).Cancel? }

  lemma EmitLeaves(c: Conn)
    requires Leaving(c.reader) && c.queue != []
    ensures Leaving(Emit(c).reader) && Emit(c).dispatched == c.dispatched
  {
  }

  lemma PlainLeaves(c: Conn, s: Step)
    requires Leaving(c.reader) && Enabled(c, s)
    requires !s.CancelStream? && !s.Queue? && !s.Get? && !s.Push? && !s.DoEmit?
    ensures Leaving(After(c, s).reader) && After(c, s).dispatched == c.dispatched
  {
    hide OnWire, Dispatch, CancelOne, Called, Emit, Check, Free, Enqueue, GetOne, PushOne, QueueOne, Shown, Blocked;
    if s.DoCheck? {
      AfterCheck(c);
      CheckLeaves(c);
    }
  }

  lemma CheckLeaves(c: Conn)
    requires c.writer.Sent?
    ensures Check(c).reader == c.reader && Check(c).dispatched == c.dispatched
  {
  }

  lemma EnqueueLeaves(c: Conn, o: Out)
    ensures Enqueue(c, o).reader == c.reader && Enqueue(c, o).dispatched == c.dispatched
  {
  }

  lemma QueueLeaves(c: Conn, id: nat, slot: nat)
    requires Enabled(c, Step.Queue(id, slot))
    ensures var d := After(c, Step.Queue(id, slot)); d.reader == c.reader && d.dispatched == c.dispatched
  {
    AfterQueue(c, id, slot);
    EnqueueLeaves(c, Out(c.made, OnWire(id, c.streams[id].pending[0]), Some(slot)));
    hide After, Enabled, OnWire, Enqueue;
  }

  lemma GetLeaves(c: Conn, slot: nat)
    requires Enabled(c, Get(slot)) && Leaving(c.reader)
    ensures var d := After(c, Get(slot)); Leaving(d.reader) && d.dispatched == c.dispatched
  {
    AfterGet(c, slot);
    hide After, Enabled;
  }

  lemma PushLeaves(c: Conn)
    requires Enabled(c, Push) && Leaving(c.reader)
    ensures var d := After(c, Push); Leaving(d.reader) && d.dispatched == c.dispatched
  {
    AfterPush(c);
    EnqueueLeaves(c, c.reader.out);
    hide After, Enabled, Enqueue;
  }

  lemma CancelLeaves(c: Conn, id: nat)
    requires Enabled(c, CancelStream(id))
    ensures var d := After(c, CancelStream(id)); Leaving(d.reader) && d.dispatched == c.dispatched
  {
    CancelMoves(c, id);
    CancelIdles(c, id);
    hide After, Enabled;
  }

  lemma LeavingStep(c: Conn, s: Step)
    requires Leaving(c.reader) && Enabled(c, s)
    ensures Leaving(After(c, s).reader) && After(c, s).dispatched == c.dispatched
  {
    hide Leaving;
    match s
    case CancelStream(id) => CancelLeaves(c, id);
    case Queue(id, slot) => QueueLeaves(c, id, slot);
    case Get(slot) => GetLeaves(c, slot);
    case Push => PushLeaves(c);
    case DoEmit =>
      AfterEmit(c);
      EmitLeaves(c);
    case _ => PlainLeaves(c, s);
  }

  /** Once the reader has begun to cancel its streams it dispatches no frame any more. */
  lemma {:induction false} GoodbyeIsLast(c: Conn, steps: seq<Step>)
    requires Leaving(c.reader)
    ensures Leaving(Run(c, steps).reader) && Run(c, steps).dispatched == c.dispatched
    decreases |steps|
  {
    hide Leaving, After, Enabled;
    if steps != [] {
      if Enabled(c, steps[0]) {
        LeavingStep(c, steps[0]);
      }
      GoodbyeIsLast(if Enabled(c, steps[0]) then After(c, steps[0]) else c, steps[1..]);
    }
  }

  lemma StoppedStep(c: Conn, s: Step)
    requires (c.reader.Stopped? ==> !c.running) && Enabled(c, s)
    ensures After(c, s).reader.Stopped? ==> !After(c, s).running
  {
    if !c.running {
      DownStep(c, s);
      hide After;
    } else if s.DoDispatch? {
      DispatchNext(c, c.reader.received);
      hide Dispatch;
    } else if s.CancelStream? {
      CancelMoves(c, s.id);
      hide After;
    } else {
      hide OnWire, Dispatch, CancelOne, Called, Check, Free, Enqueue, QueueOne;
    }
  }

  lemma DispatchNext(c: Conn, f: Frame)
    requires c.reader.Holding?
    ensures !Dispatch(c, f).reader.Stopped?
  {
    hide FromFrame, Process, Leave;
    LeaveSays(c.(dispatched := c.dispatched + [f]));
    if f.kind <= DATA && FromFrame(f.kind, f).Parsed? {
      ProcessNext(c.(dispatched := c.dispatched + [f]), FromFrame(f.kind, f).typed);
      ProcessNotStopped(c.(dispatched := c.dispatched + [f]), FromFrame(f.kind, f).typed);
    }
  }

  lemma ProcessNotStopped(c: Conn, t: Typed)
    ensures !Process(c, t).reader.Stopped?
  {
    hide ToStream, Leave;
    LeaveSays(c);
    match t
    case ResetStream(id, code) => ToStreamAnswers(c, id, Packet.Reset(code));
    case DataFrame(id, endData, endStream, payload) => ToStreamAnswers(c, id, Data(payload, endData, endStream));
    case _ =>
  }

  lemma {:induction false} RunStops(c: Conn, steps: seq<Step>)
    requires c.reader.Stopped? ==> !c.running
    ensures Run(c, steps).reader.Stopped? ==> !Run(c, steps).running
    decreases |steps|
  {
    hide After, Enabled;
    if steps != [] {
      if Enabled(c, steps[0]) {
        StoppedStep(c, steps[0]);
      }
      RunStops(if Enabled(c, steps[0]) then After(c, steps[0]) else c, steps[1..]);
    }
  }

  /** In every run, a reader that has stopped has brought the connection down. */
  lemma StoppedIsDown(steps: seq<Step>)
    ensures Run(NewConn, steps).reader.Stopped? ==> !Run(NewConn, steps).running
  {
    RunStops(NewConn, steps);
  }

  // Silence.

  /** The connection's socket is closed, or its reading or writing has failed. */
  predicate Silent(c: Conn) { !c.running || c.failed || c.broken }

  lemma EmitSilent(c: Conn)
    requires Silent(c) && c.queue != []
    ensures Silent(Emit(c)) && Emit(c).wire == c.wire && Emit(c).packed == c.packed
  {
  }

  lemma CheckSilent(c: Conn)
    requires Silent(c) && c.writer.Sent?
    ensures Silent(Check(c)) && Check(c).wire == c.wire && Check(c).packed == c.packed
  {
  }

  lemma QueueSilent(c: Conn, id: nat, slot: nat)
    requires Silent(c) && Enabled(c, Step.Queue(id, slot))
    ensures var d := After(c, Step.Queue(id, slot)); Silent(d) && d.wire == c.wire && d.packed == c.packed
  {
    AfterQueue(c, id, slot);
    hide After, Enabled, OnWire;
  }

  lemma PushSilent(c: Conn)
    requires Silent(c) && Enabled(c, Push)
    ensures var d := After(c, Push); Silent(d) && d.wire == c.wire && d.packed == c.packed
  {
    AfterPush(c);
    hide After, Enabled;
  }

  lemma DispatchSilent(c: Conn)
    requires Sane(c) && Silent(c) && Enabled(c, DoDispatch)
    ensures var d := After(c, DoDispatch); Silent(d) && d.wire == c.wire && d.packed == c.packed
  {
    var f := c.reader.received;
    DispatchVerdict(c, f);
    hide Dispatch, Violates, Accepts;
  }

  lemma CancelSilent(c: Conn, id: nat)
    requires Silent(c) && Enabled(c, CancelStream(id))
    ensures var d := After(c, CancelStream(id)); Silent(d) && d.wire == c.wire && d.packed == c.packed
  {
    CancelIdles(c, id);
    hide After, Enabled;
  }

  lemma StepSilent(c: Conn, s: Step)
    requires Sane(c) && Silent(c) && Enabled(c, s)
    ensures var d := After(c, s); Silent(d) && d.wire == c.wire && d.packed == c.packed
  {
    match s
    case DoEmit =>
      AfterEmit(c);
      EmitSilent(c);
      hide After, Enabled, Emit, Silent;
    case DoCheck =>
      AfterCheck(c);
      CheckSilent(c);
      hide After, Enabled, Check, Silent;
    case Queue(id, slot) =>
      hide After, Enabled, Silent;
      QueueSilent(c, id, slot);
    case Push =>
      hide After, Enabled, Silent;
      PushSilent(c);
    case DoDispatch =>
      hide After, Enabled, Silent;
      DispatchSilent(c);
    case CancelStream(id) =>
      hide After, Enabled, Silent;
      CancelSilent(c, id);
    case _ => hide Free, Enqueue, Emit, Check, Dispatch, CancelOne, OnWire, Called, Shown, Blocked;
  }

  lemma {:induction false} RunSane(c: Conn, steps: seq<Step>)
    requires Sane(c)
    ensures Sane(Run(c, steps))
    decreases |steps|
  {
    hide Sane, After, Enabled;
    if steps != [] {
      if Enabled(c, steps[0]) {
        StepSane(c, steps[0]);
      }
      RunSane(if Enabled(c, steps[0]) then After(c, steps[0]) else c, steps[1..]);
    }
  }

  lemma {:induction false} RunSilent(c: Conn, steps: seq<Step>)
    requires Sane(c) && Silent(c)
    ensures Silent(Run(c, steps)) && Run(c, steps).wire == c.wire && Run(c, steps).packed == c.packed
    decreases |steps|
  {
    hide Sane, Silent, After, Enabled;
    if steps != [] {
      if Enabled(c, steps[0]) {
        StepSane(c, steps[0]);
        StepSilent(c, steps[0]);
      }
      RunSilent(if Enabled(c, steps[0]) then After(c, steps[0]) else c, steps[1..]);
    }
  }

  /** Whatever was still queued: once the connection is down, or has failed, nothing is added to the wire. */
  lemma SilentForGood(steps: seq<Step>, later: seq<Step>)
    requires Silent(Run(NewConn, steps))
    ensures var c := Run(NewConn, steps);
      var d := Run(c, later);
      Silent(d) && d.wire == c.wire && d.packed == c.packed
  {
    hide Run, Sane, Silent;
    NewSane();
    RunSane(NewConn, steps);
    RunSilent(Run(NewConn, steps), later);
  }

  /** The reader goes on after its write, unless that failed and it depends on it: then the connection ends. */
  lemma UnwrittenEnds(c: Conn)
    requires Enabled(c, DoEmit) && c.reader.Waiting? && c.queue[0].ticket == c.reader.ticket
    ensures After(c, DoEmit).reader == if Silent(c) && c.reader.fatal then Ending else Ready(c.reader.next)
    ensures After(c, DoEmit).queue == c.queue[1..]
    ensures After(c, DoEmit).failed <==> c.failed || (Silent(c) && c.reader.fatal && c.queue[0].frame.Ping?)
  {
    AfterEmit(c);
    hide After, Enabled;
  }
}
