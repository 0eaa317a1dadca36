/** How a connection goes down after a violation, how the pooled outbound objects can keep it from doing so, and what panics. */
module Farewells {
  import opened Base
  import opened Streams
  import opened Frames
  import opened Connections
  import opened Handshake

  // A violation brings the connection down.

  function Effort(c: Conn): nat {
    2 * |c.queue| + (if c.writer.Sent? then 1 else 0)
    + (if c.reader.Sending? then (if c.reader.out.slot == None then 4 else 3) else 0)
  }

  /** What the connection's own two goroutines still do once it is to go away. */
  function Winding(c: Conn): (s: Option<Step>)
    ensures s.Some? ==> Enabled(c, s.value) && Spares(c, s.value)
  {
    if c.panicked || !c.running then None
    else if c.writer.Sent? then Some(DoCheck)
    else if c.queue != [] then Some(DoEmit)
    else if c.reader.Sending? then Some(if c.reader.out.slot == None then Get(0) else Push)
    else None
  }

  lemma WindingShrinks(c: Conn)
    requires Winding(c).Some?
    ensures Effort(After(c, Winding(c).value)) < Effort(c)
  {
    if c.writer.Sent? {
      assert After(c, DoCheck) == Check(c);
    } else if c.queue != [] {
      assert After(c, DoEmit) == Emit(c);
      EmitShrinks(c);
      hide Emit;
    } else if c.reader.out.slot == None {
      AfterGet(c, 0);
    } else {
      AfterPush(c);
    }
    hide After, Enabled, Emit;
  }

  lemma EmitShrinks(c: Conn)
    requires c.queue != [] && c.writer.Idle?
    ensures Effort(Emit(c)) < Effort(c)
  {
  }

  function Schedule(c: Conn): seq<Step>
    decreases Effort(c)
  {
    if Winding(c).None? then []
    else
      WindingShrinks(c);
      [Winding(c).value] + Schedule(After(c, Winding(c).value))
  }

  lemma WindingStill(c: Conn)
    requires Winding(c).Some? && c.violated && !c.broken
    ensures var d := After(c, Winding(c).value); d.violated && !d.broken
  {
    if c.writer.Sent? {
      AfterCheck(c);
    } else if c.queue != [] {
      AfterEmit(c);
    } else if c.reader.out.slot == None {
      AfterGet(c, 0);
    } else {
      AfterPush(c);
    }
    hide After, Enabled;
  }

  /**
   * From any point after a violation - whatever is still queued, however full the queue - the
   * connection's own goroutines, left to run, bring it down with the farewell as its last word.
   */
  lemma {:induction false} ViolationEnds(c: Conn)
    requires Orderly(c, true) && c.violated && !c.broken
    ensures var d := Run(c, Schedule(c));
      !d.running && Says(d, Farewell)
    decreases Effort(c)
  {
    if Winding(c).Some? {
      var s := Winding(c).value;
      var d := After(c, s);
      WindingShrinks(c);
      WindingStill(c);
      hide After, Orderly, Spares;
      StepOrderly(c, s, true);
      ViolationEnds(d);
      assert Schedule(c)[0] == s && Schedule(c)[1..] == Schedule(d);
    }
  }

  /** The same, of every run that has met a violation and spared the pooled objects. */
  lemma EveryViolationEnds(steps: seq<Step>)
    requires Sparing(NewConn, steps)
    requires var c := Run(NewConn, steps);
      c.violated && !c.broken
    ensures var c := Run(NewConn, steps);
      var d := Run(c, Schedule(c));
      !d.running && Says(d, Farewell)
  {
    hide Run, Schedule, Orderly, Sparing;
    NewConnOrderly();
    RunOrderly(NewConn, steps);
    ViolationEnds(Run(NewConn, steps));
  }

  // In every interleaving.

  /** The farewell is in the queue, or written and about to take effect. */
  predicate Committed(c: Conn) {
    && c.violated && c.running && !c.broken && c.terminateAfter.Some?
    && var t := c.terminateAfter.value;
      (c.reader.Waiting? && c.reader.ticket == t && Queued(c, t)) || Wrote(c, t)
  }

  function Ahead(q: seq<Out>, t: nat): nat {
    if q == [] || q[0].ticket == t then 0 else 1 + Ahead(q[1..], t)
  }

  /** How many steps of the writing goroutine are left. */
  function Distance(c: Conn): nat
    requires c.terminateAfter.Some?
  {
    var t := c.terminateAfter.value;
    if Wrote(c, t) then 1 else 2 * (Ahead(c.queue, t) + 1) + (if c.writer.Sent? then 1 else 0)
  }

  lemma {:induction false} AheadAppend(q: seq<Out>, o: Out, t: nat)
    requires exists i :: 0 <= i < |q| && q[i].ticket == t
    ensures Ahead(q + [o], t) == Ahead(q, t)
  {
    if q[0].ticket != t {
      var i :| 0 <= i < |q| && q[i].ticket == t;
      assert q[1..][i - 1].ticket == t;
      AheadAppend(q[1..], o, t);
      assert (q + [o])[1..] == q[1..] + [o];
    }
  }

  predicate Writes(s: Step) { s.DoEmit? || s.DoCheck? }

  /** One step nearer, if it was the writer's; no farther, if not. */
  ghost predicate Nearer(c: Conn, s: Step, d: Conn) {
    !d.running
    || (Committed(d) && d.terminateAfter == c.terminateAfter
        && Distance(d) + (if Writes(s) then 1 else 0) <= Distance(c))
  }

  lemma EmitNearer(c: Conn)
    requires Orderly(c, true) && Committed(c) && Enabled(c, DoEmit)
    ensures Nearer(c, DoEmit, After(c, DoEmit))
  {
    var t, d := c.terminateAfter.value, After(c, DoEmit);
    var i :| 0 <= i < |c.queue| && c.queue[i].ticket == t;
    if c.queue[0].ticket != t {
      assert d.queue[i - 1].ticket == t;
    }
    hide Dispatch, CancelOne, OnWire, Called, Check;
  }

  lemma QueueNearer(c: Conn, id: nat, slot: nat)
    requires Committed(c) && Enabled(c, Step.Queue(id, slot))
    ensures Nearer(c, Step.Queue(id, slot), After(c, Step.Queue(id, slot)))
  {
    hide Dispatch, CancelOne, OnWire, Called, Emit, Check;
    var t, d := c.terminateAfter.value, After(c, Step.Queue(id, slot));
    if !Wrote(c, t) {
      var i :| 0 <= i < |c.queue| && c.queue[i].ticket == t;
      AheadAppend(c.queue, Out(c.made, OnWire(id, c.streams[id].pending[0]), Some(slot)), t);
      assert d.queue[i].ticket == t;
    }
  }

  lemma DispatchNearer(c: Conn)
    requires Orderly(c, true) && Committed(c) && Enabled(c, DoDispatch)
    requires After(c, DoDispatch).terminateAfter == c.terminateAfter
    ensures Nearer(c, DoDispatch, After(c, DoDispatch))
  {
    var f := c.reader.received;
    DispatchVerdict(c, f);
    hide Dispatch;
  }

  lemma StepNearer(c: Conn, s: Step)
    requires Orderly(c, true) && Committed(c) && Enabled(c, s)
    requires After(c, s).terminateAfter == c.terminateAfter && !After(c, s).broken
    ensures Nearer(c, s, After(c, s))
  {
    hide Dispatch, CancelOne, OnWire, Called, Emit, Check, Free;
    if s.DoDispatch? {
      DispatchNearer(c);
    } else if s.DoEmit? {
      EmitNearer(c);
    } else if s.Queue? {
      QueueNearer(c, s.id, s.slot);
    } else if s.CancelStream? {
      CancelIdles(c, s.id);
    } else {
      OtherNearer(c, s);
    }
  }

  lemma OtherNearer(c: Conn, s: Step)
    requires Orderly(c, true) && Committed(c) && Enabled(c, s) && !After(c, s).broken
    requires !s.DoDispatch? && !s.DoEmit? && !s.Queue? && !s.CancelStream?
    ensures Nearer(c, s, After(c, s))
  {
    hide Dispatch, CancelOne, OnWire, Called, Emit, Free;
  }

  /** No step of the run brings another farewell into play, and none breaks the socket. */
  ghost predicate Undisturbed(c: Conn, steps: seq<Step>)
    decreases |steps|
  {
    steps == [] ||
    var d := if Enabled(c, steps[0]) then After(c, steps[0]) else c;
    d.terminateAfter == c.terminateAfter && !d.broken && Undisturbed(d, steps[1..])
  }

  /** How many steps of the run are the writing goroutine's. */
  function WriterSteps(c: Conn, steps: seq<Step>): nat
    decreases |steps|
  {
    if steps == [] then 0
    else if !Enabled(c, steps[0]) then WriterSteps(c, steps[1..])
    else (if Writes(steps[0]) then 1 else 0) + WriterSteps(After(c, steps[0]), steps[1..])
  }

  lemma {:induction false} InterleavingEnds(c: Conn, steps: seq<Step>)
    requires Orderly(c, true) && Committed(c) && Sparing(c, steps) && Undisturbed(c, steps)
    requires WriterSteps(c, steps) >= Distance(c)
    ensures !Run(c, steps).running && Says(Run(c, steps), Farewell)
    decreases |steps|
  {
    assert Distance(c) > 0;
    hide Orderly, Committed, After, Enabled, Distance, Spares;
    var s, rest := steps[0], steps[1..];
    if Enabled(c, s) {
      var d := After(c, s);
      StepNearer(c, s);
      StepOrderly(c, s, true);
      if d.running {
        InterleavingEnds(d, rest);
      } else {
        DownSays(c, s);
        NeverRunsAgain(d, rest);
      }
    } else {
      InterleavingEnds(c, rest);
    }
  }

  /**
   * Once the farewell is queued, every run whatever - the streams' owners queueing, the reader reading
   * on - in which the writing goroutine makes that many steps, no further violation comes in between and
   * no pooled object is taken before its comparison, ends with the connection down and the farewell as
   * its last frame.
   */
  lemma EveryInterleavingEnds(before: seq<Step>, steps: seq<Step>)
    requires Sparing(NewConn, before) && Committed(Run(NewConn, before))
    requires var c := Run(NewConn, before);
      Sparing(c, steps) && Undisturbed(c, steps) && WriterSteps(c, steps) >= Distance(c)
    ensures var d := Run(Run(NewConn, before), steps);
      !d.running && Says(d, Farewell)
  {
    hide Run, Orderly, Sparing, Undisturbed, WriterSteps, Distance, Committed;
    NewConnOrderly();
    RunOrderly(NewConn, before);
    InterleavingEnds(Run(NewConn, before), steps);
  }

  lemma DownSays(c: Conn, s: Step)
    requires Orderly(c, true) && Committed(c) && Enabled(c, s) && Spares(c, s)
    requires !After(c, s).running && !After(c, s).broken
    ensures Says(After(c, s), Farewell)
  {
    StepOrderly(c, s, true);
    StepViolated(c, s);
    hide After;
  }

  lemma StepViolated(c: Conn, s: Step)
    requires c.violated && Enabled(c, s) && (s.DoDispatch? ==> Measured(c.reader.received))
    ensures After(c, s).violated
  {
    if s.DoDispatch? {
      DispatchVerdict(c, c.reader.received);
      hide Dispatch;
    } else {
      StepIdles(c, s);
      hide After;
    }
  }

  // The pooled objects.

  /** Some step of the run takes the object. */
  predicate Takes(c: Conn, steps: seq<Step>, slot: Option<nat>)
    decreases |steps|
  {
    steps != [] &&
    if Enabled(c, steps[0]) then Taken(steps[0]) == slot || Takes(After(c, steps[0]), steps[1..], slot)
    else Takes(c, steps[1..], slot)
  }

  /** What a step does to an object that the writer has still to look at. */
  lemma SlotStep(c: Conn, s: Step)
    requires Sane(c) && c.writer.Sent? && c.writer.slot.Some? && Enabled(c, s) && !s.DoCheck?
    ensures var d, k := After(c, s), c.writer.slot;
      && d.writer == c.writer
      && (if Taken(s) == k then Shown(d, k) != Some(c.writer.ticket) else Shown(d, k) == Shown(c, k))
  {
    if s.DoDispatch? {
      DispatchVerdict(c, c.reader.received);
      hide Dispatch;
    } else if s.CancelStream? {
      CancelIdles(c, s.id);
      hide After;
    } else {
      OtherSlot(c, s);
      hide After;
    }
  }

  lemma OtherSlot(c: Conn, s: Step)
    requires Sane(c) && c.writer.Sent? && c.writer.slot.Some? && Enabled(c, s)
    requires !s.DoCheck? && !s.DoDispatch? && !s.CancelStream?
    ensures var d, k := After(c, s), c.writer.slot;
      && d.writer == c.writer
      && (if Taken(s) == k then Shown(d, k) != Some(c.writer.ticket) else Shown(d, k) == Shown(c, k))
  {
    if s.Get? {
      AfterGet(c, s.slot);
      hide After, Enabled;
    } else if s.Queue? {
      AfterQueue(c, s.id, s.slot);
      hide After, Enabled, OnWire;
    } else {
      StillShown(c, s);
      hide After, Enabled;
    }
  }

  lemma StillShown(c: Conn, s: Step)
    requires c.writer.Sent? && c.writer.slot.Some? && Enabled(c, s)
    requires !s.DoCheck? && !s.DoDispatch? && !s.CancelStream? && !s.Get? && !s.Queue?
    ensures var d, k := After(c, s), c.writer.slot;
      d.writer == c.writer && Shown(d, k) == if Taken(s) == k then None else Shown(c, k)
  {
    hide Dispatch, CancelOne, OnWire, Called, Emit, Check, Free, Enqueue;
    if s.Push? {
      AfterPush(c);
      EnqueueShows(c, c.reader.out);
    } else if s.Borrow? {
      assert After(c, s) == c.(slots := c.slots - {s.slot});
    } else {
      OtherShown(c, s);
    }
    hide After;
  }

  lemma EnqueueShows(c: Conn, o: Out)
    ensures Enqueue(c, o).slots == c.slots && Enqueue(c, o).writer == c.writer
  {
  }

  lemma OtherShown(c: Conn, s: Step)
    requires c.writer.Sent? && Enabled(c, s)
    requires s.Receive? || s.CancelDone? || s.ReadFails? || s.Terminate? || s.Exit? || s.Invoke? || s.Break?
    ensures After(c, s).writer == c.writer && After(c, s).slots == c.slots
  {
    hide Dispatch, CancelOne, OnWire, Called, Emit, Check, Free, Enqueue;
  }

  lemma {:induction false} SlotRun(c: Conn, steps: seq<Step>)
    requires Sane(c) && c.writer.Sent? && c.writer.slot.Some? && DoCheck !in steps
    ensures var d, k, t := Run(c, steps), c.writer.slot, Some(c.writer.ticket);
      && Sane(d) && d.writer == c.writer
      && (Shown(d, k) == t <==> Shown(c, k) == t && !Takes(c, steps, k))
    decreases |steps|
  {
    hide Sane, Enabled, After, Taken, Shown;
    if steps != [] {
      if Enabled(c, steps[0]) {
        SlotStep(c, steps[0]);
        StepSane(c, steps[0]);
      }
      SlotRun(if Enabled(c, steps[0]) then After(c, steps[0]) else c, steps[1..]);
    }
  }

  /**
   * The farewell has been written and its sender answered, so its pooled object may be taken again
   * before the writer looks at it. In every run, the comparison that follows ends the connection if and
   * only if nobody has taken it.
   */
  lemma ComparisonExactly(before: seq<Step>, steps: seq<Step>)
    requires var b := Run(NewConn, before);
      Enabled(b, DoEmit) && b.running && !b.failed && !b.broken && DoCheck !in steps
    requires var b := Run(NewConn, before);
      var d := Run(After(b, DoEmit), steps);
      d.running && Enabled(d, DoCheck) && d.terminateAfter == Some(b.queue[0].ticket)
    ensures var b := Run(NewConn, before);
      var c := After(b, DoEmit);
      !After(Run(c, steps), DoCheck).running <==> !Takes(c, steps, b.queue[0].slot)
  {
    NewConnInv();
    RunInv(NewConn, before);
    var b := Run(NewConn, before);
    StepSane(b, DoEmit);
    EmitShows(b);
    var c := After(b, DoEmit);
    SlotRun(c, steps);
    CheckIs(Run(c, steps));
    hide Run, After, Enabled, Sane, Takes, Shown, Ledger;
  }

  lemma EmitShows(b: Conn)
    requires Sane(b) && Enabled(b, DoEmit) && b.running && !b.failed && !b.broken
    ensures var c := After(b, DoEmit);
      && c.writer == Sent(b.queue[0].ticket, b.queue[0].slot) && b.queue[0].slot.Some?
      && Shown(c, b.queue[0].slot) == Some(b.queue[0].ticket)
  {
    hide Dispatch, CancelOne, OnWire, Called, Check, Free;
  }

  lemma CheckIs(d: Conn)
    requires Enabled(d, DoCheck) && d.running
    ensures !After(d, DoCheck).running <==> d.terminateAfter.Some? && Shown(d, d.writer.slot) == d.terminateAfter
  {
    hide Dispatch, CancelOne, OnWire, Called, Emit, Free;
  }

  // A send on the closed queue.

  /** In every reachable state: what panics is exactly queueing a frame once the connection is down. */
  lemma PanicsExactly(steps: seq<Step>, s: Step)
    requires Enabled(Run(NewConn, steps), s)
    ensures var c := Run(NewConn, steps);
      After(c, s).panicked <==> !c.running && (s.Push? || s.Queue?)
  {
    hide Run;
    NewConnInv();
    RunInv(NewConn, steps);
    var c := Run(NewConn, steps);
    StepPanics(c, s);
  }

  lemma StepPanics(c: Conn, s: Step)
    requires Sane(c) && Enabled(c, s)
    ensures After(c, s).panicked <==> !c.running && (s.Push? || s.Queue?)
  {
    if s.DoDispatch? {
      DispatchVerdict(c, c.reader.received);
      hide Dispatch;
    } else if s.CancelStream? {
      CancelIdles(c, s.id);
      hide After;
    } else if s.Push? || s.Queue? {
      QueueingPanics(c, s);
      hide After;
    } else {
      OthersDoNot(c, s);
      hide After;
    }
  }

  lemma QueueingPanics(c: Conn, s: Step)
    requires Enabled(c, s) && (s.Push? || s.Queue?)
    ensures After(c, s).panicked <==> !c.running
  {
    if s.Push? {
      AfterPush(c);
    } else {
      AfterQueue(c, s.id, s.slot);
    }
    hide After, OnWire;
  }

  lemma OthersDoNot(c: Conn, s: Step)
    requires Enabled(c, s) && !s.DoDispatch? && !s.CancelStream? && !s.Push? && !s.Queue?
    ensures !After(c, s).panicked
  {
    hide Dispatch, CancelOne, Enqueue, OnWire, Called, Free;
  }

  // Runs.

  /** A HELLO without payload, the frame that makes stream 1, and a PING of no length. */
  const Plain: Frame := Frame(0, HELLO, 0, 0, [])
  const Make1: Frame := Frame(1, MAKE_STREAM, 0, 0, [])
  const Bad: Frame := Frame(0, PING, 0, 0, [])

  lemma BadLeaves(c: Conn)
    ensures Dispatch(c, Bad) == Leave(c.(dispatched := c.dispatched + [Bad]))
  {
    assert FromFrame(PING, Bad) == Rejected(BadLength);
    hide FromFrame, Process, Leave;
    DispatchIs(c, Bad);
  }

  /** A frame about to be queued on a sound and idle connection is written in three steps, and its sender answered. */
  lemma Written(c: Conn, slot: nat, rest: seq<Step>)
    requires c.reader.Sending? && c.reader.out.slot == None && c.queue == [] && c.writer == Idle
    requires c.running && !c.failed && !c.broken && !c.panicked
    ensures Run(c, [Get(slot), Push, DoEmit] + rest) == Run(WrittenOut(c, slot), rest)
  {
    var c1, o := After(c, Get(slot)), c.reader.out.(slot := Some(slot));
    AfterGet(c, slot);
    AfterPush(c1);
    var c2 := After(c1, Push);
    assert c2.queue == [o];
    assert After(c2, DoEmit) == Emit(c2) == WrittenOut(c, slot);
    hide Run, After, Emit, WrittenOut;
    RunTwo(c, Get(slot), Push, [DoEmit] + rest);
    RunOne(c2, DoEmit, rest);
    assert [Get(slot), Push, DoEmit] + rest == [Get(slot), Push] + ([DoEmit] + rest);
  }

  function WrittenOut(c: Conn, slot: nat): Conn
    requires c.reader.Sending?
  {
    c.(reader := Ready(c.reader.next), writer := Sent(c.reader.out.ticket, Some(slot)),
       slots := c.slots[slot := c.reader.out.ticket],
       wire := c.wire + [c.reader.out.frame], packed := c.packed + [c.compressing])
  }

  /** A bad frame, received and dispatched. */
  lemma BadArrives(c: Conn, rest: seq<Step>)
    requires c.reader == Ready(Loop) && c.running && !c.panicked
    ensures Run(c, [Receive(Bad), DoDispatch] + rest) == Run(Left(c), rest)
  {
    var c1 := c.(reader := Holding(Bad));
    assert After(c, Receive(Bad)) == c1;
    BadLeaves(c1);
    assert After(c1, DoDispatch) == Left(c);
    hide Run, Dispatch, Left;
    RunTwo(c, Receive(Bad), DoDispatch, rest);
  }

  function Left(c: Conn): Conn { Leave(c.(reader := Holding(Bad), dispatched := c.dispatched + [Bad])) }

  /** The farewell is written and its sender answered; the writer has still to compare it. */
  function Parting(): Conn { WrittenOut(Left(NewConn), 0) }

  lemma Parts(rest: seq<Step>)
    ensures Run(NewConn, [Receive(Bad), DoDispatch] + ([Get(0), Push, DoEmit] + rest)) == Run(Parting(), rest)
  {
    BadArrives(NewConn, [Get(0), Push, DoEmit] + rest);
    Written(Left(NewConn), 0, rest);
    hide Run;
  }

  lemma CheckOne(c: Conn, rest: seq<Step>)
    requires c.writer.Sent? && !c.panicked
    ensures Run(c, [DoCheck] + rest) == Run(Check(c), rest)
  {
    assert After(c, DoCheck) == Check(c);
    hide Run, After, Check;
    RunOne(c, DoCheck, rest);
  }

  /** The second frame is dispatched on a connection that is down, and its farewell queued. */
  lemma LateFarewell(c: Conn)
    requires c.reader == Holding(Bad) && !c.running && c.queue == [] && !c.panicked
    ensures Enabled(c, DoDispatch) && Enabled(After(c, DoDispatch), Get(0))
    ensures Enabled(After(After(c, DoDispatch), Get(0)), Push)
    ensures After(After(After(c, DoDispatch), Get(0)), Push).panicked
  {
    BadLeaves(c);
    var d := Leave(c.(dispatched := c.dispatched + [Bad]));
    assert After(c, DoDispatch) == d;
    AfterGet(d, 0);
    AfterPush(After(d, Get(0)));
    hide Dispatch, After;
  }

  /** And so it panics. */
  lemma LatePanics(c: Conn)
    requires c.reader == Holding(Bad) && !c.running && c.queue == [] && !c.panicked
    ensures Run(c, [DoDispatch] + [Get(0), Push]).panicked
  {
    LateFarewell(c);
    hide Run, After, Enabled;
    var d := After(c, DoDispatch);
    RunOne(c, DoDispatch, [Get(0), Push]);
    RunTwo(d, Get(0), Push, []);
    RunNone(After(After(d, Get(0)), Push));
    assert [Get(0), Push] + [] == [Get(0), Push];
  }

  /** A second frame comes in before the writer compares the first farewell. */
  lemma FrameInBetween()
    ensures var c := Parting();
      && Enabled(c, Receive(Bad)) && After(c, Receive(Bad)).writer.Sent? && !After(c, Receive(Bad)).panicked
      && var d := Check(After(c, Receive(Bad)));
         d.reader == Holding(Bad) && !d.running && d.queue == [] && !d.panicked
  {
    var c := Parting();
    assert After(c, Receive(Bad)) == c.(reader := Holding(Bad));
    hide After;
  }

  /** Two ill-timed frames are enough: the second is dispatched after the first has brought the connection down. */
  lemma PanicHappens()
    ensures Run(NewConn, [Receive(Bad), DoDispatch] + ([Get(0), Push, DoEmit]
      + ([Receive(Bad)] + ([DoCheck] + ([DoDispatch] + [Get(0), Push]))))).panicked
  {
    hide Run, After, Enabled, Dispatch, Check, Parting;
    var rest := [DoDispatch] + [Get(0), Push];
    FrameInBetween();
    var c := After(Parting(), Receive(Bad));
    Parts([Receive(Bad)] + ([DoCheck] + rest));
    RunOne(Parting(), Receive(Bad), [DoCheck] + rest);
    CheckOne(c, rest);
    LatePanics(Check(c));
  }

  /**
   * A second violation that comes in before the writer compares the first farewell moves the point of
   * termination: the connection then writes on, and goes down after the second.
   */
  lemma SecondFarewell()
    ensures var c := Run(NewConn, [Receive(Bad), DoDispatch] + ([Get(0), Push, DoEmit] + ([Receive(Bad), DoDispatch] + ([DoCheck] + []))));
      var d := Run(c, [Get(1), Push, DoEmit] + ([DoCheck] + []));
      && c.running && c.wire == [Farewell] && c.writer == Idle
      && !d.running && d.wire == [Farewell, Farewell]
  {
    var c1 := Parting();
    var c2 := Left(c1);
    var c3 := Check(c2);
    assert c3.running && c3.writer == Idle && c3.wire == [Farewell];
    var c4 := WrittenOut(c3, 1);
    var d := Check(c4);
    assert !d.running && d.wire == [Farewell, Farewell];
    hide Run, Check;
    Parts([Receive(Bad), DoDispatch] + ([DoCheck] + []));
    BadArrives(c1, [DoCheck] + []);
    CheckOne(c2, []);
    RunNone(c3);
    Written(c3, 1, [DoCheck] + []);
    CheckOne(c4, []);
    RunNone(d);
  }

  /** A connection that has answered HELLO, the writer about to compare; and after that. */
  function Greeted(): Conn {
    WrittenOut(Ask(NewConn.(reader := Holding(Plain), dispatched := [Plain], configured := true), Hello(true, false, 0), Loop, true), 0)
  }

  lemma PlainParses(c: Conn)
    requires !c.configured
    ensures Dispatch(c, Plain) == Ask(c.(dispatched := c.dispatched + [Plain], configured := true, compressing := false), Hello(true, false, 0), Loop, true)
  {
    assert FromFrame(HELLO, Plain) == Parsed(Hello(false, false, 0));
    hide FromFrame, Ask, Leave;
    DispatchIs(c, Plain);
  }

  lemma GreetsFirst(rest: seq<Step>)
    ensures Run(NewConn, [Receive(Plain), DoDispatch] + ([Get(0), Push, DoEmit] + rest)) == Run(Greeted(), rest)
  {
    var c1 := NewConn.(reader := Holding(Plain));
    assert After(NewConn, Receive(Plain)) == c1;
    PlainParses(c1);
    var c2 := After(c1, DoDispatch);
    assert c2 == Ask(c1.(dispatched := [Plain], configured := true), Hello(true, false, 0), Loop, true);
    Written(c2, 0, rest);
    hide Run, Dispatch;
    RunTwo(NewConn, Receive(Plain), DoDispatch, [Get(0), Push, DoEmit] + rest);
  }

  /**
   * The object of the HELLO's answer is taken for the farewell before the writer has looked at it: the
   * comparison finds the farewell, and the connection goes down without having written it - for good.
   */
  lemma FarewellUnsent()
    ensures var c := Run(NewConn, [Receive(Plain), DoDispatch] + ([Get(0), Push, DoEmit] + ([Receive(Bad), DoDispatch] + ([Get(0)] + ([DoCheck] + [])))));
      c.violated && !c.running && !c.broken && c.wire == [Hello(true, false, 0)]
  {
    var c1 := Greeted();
    var c2 := Left(c1);
    AfterGet(c2, 0);
    var c3 := After(c2, Get(0));
    var d := Check(c3);
    assert d.violated && !d.running && !d.broken && d.wire == [Hello(true, false, 0)];
    hide Run, After, Check;
    GreetsFirst([Receive(Bad), DoDispatch] + ([Get(0)] + ([DoCheck] + [])));
    BadArrives(c1, [Get(0)] + ([DoCheck] + []));
    RunOne(c2, Get(0), [DoCheck] + []);
    CheckOne(c3, []);
    RunNone(d);
  }

  const LastData: Typed := DataFrame(1, true, true, [])

  lemma Make1Parses(c: Conn)
    requires c.configured && 1 !in c.streams
    ensures Dispatch(c, Make1) == c.(dispatched := c.dispatched + [Make1], streams := c.streams[1 := NewLine],
                                     serviced := c.serviced + [1], reader := Ready(Loop))
  {
    assert FromFrame(MAKE_STREAM, Make1) == Parsed(MakeStream(1));
    hide FromFrame, Leave;
    DispatchIs(c, Make1);
  }

  /** Stream 1 is registered, on a connection at rest. */
  function Joined(): Conn {
    var c := Check(Greeted());
    c.(dispatched := c.dispatched + [Make1], streams := map[1 := NewLine], serviced := [1])
  }

  lemma Joins(rest: seq<Step>)
    ensures Run(Greeted(), [DoCheck] + ([Receive(Make1), DoDispatch] + rest)) == Run(Joined(), rest)
  {
    var c0 := Check(Greeted());
    CheckOne(Greeted(), [Receive(Make1), DoDispatch] + rest);
    var c1 := c0.(reader := Holding(Make1));
    assert After(c0, Receive(Make1)) == c1;
    Make1Parses(c1);
    assert After(c1, DoDispatch) == Joined();
    hide Run, Dispatch, Check;
    RunTwo(c0, Receive(Make1), DoDispatch, rest);
  }

  /** The farewell is written; then the owner of stream 1 closes it, and its Write takes the farewell's object. */
  function Forgetting(): Conn {
    var c := WrittenOut(Left(Joined()), 0);
    c.(slots := map[0 := 2], made := 3, queue := [Out(2, LastData, Some(0))],
       streams := map[1 := Called(NewLine, CallClose).(pending := [])])
  }

  lemma Forgets(rest: seq<Step>)
    ensures Run(WrittenOut(Left(Joined()), 0), [Invoke(1, CallClose), Step.Queue(1, 0)] + rest) == Run(Forgetting(), rest)
  {
    var c0 := WrittenOut(Left(Joined()), 0);
    var l := Called(NewLine, CallClose);
    assert l.pending == [Data([], true, true)];
    var c1 := c0.(streams := map[1 := l]);
    assert After(c0, Invoke(1, CallClose)) == c1;
    AfterQueue(c1, 1, 0);
    assert OnWire(1, l.pending[0]) == LastData && l.pending[1..] == [];
    assert After(c1, Step.Queue(1, 0)) == Forgetting();
    hide Run, After;
    RunTwo(c0, Invoke(1, CallClose), Step.Queue(1, 0), rest);
  }

  /**
   * The farewell is written, but before the writer looks at its object the owner of a stream has taken it
   * for its own frame: the comparison fails, the connection runs on with DATA behind its GOAWAY, and when
   * the peer hangs up the last frame on the wire is that DATA.
   */
  lemma FarewellForgotten()
    ensures var steps := [Receive(Plain), DoDispatch] + ([Get(0), Push, DoEmit]
        + ([DoCheck] + ([Receive(Make1), DoDispatch] + ([Receive(Bad), DoDispatch] + ([Get(0), Push, DoEmit]
        + ([Invoke(1, CallClose), Step.Queue(1, 0)] + ([DoCheck] + ([DoEmit] + []))))))));
      var c := Run(NewConn, steps);
      var d := Run(c, [DoCheck] + ([ReadFails, Terminate] + []));
      && c.violated && c.running && c.wire == [Hello(true, false, 0), Farewell, LastData]
      && d.violated && !d.running && !d.broken && !Says(d, Farewell)
  {
    hide Run, Forgetting;
    Parted([DoCheck] + ([DoEmit] + []));
    Forgets([DoCheck] + ([DoEmit] + []));
    RunsOn();
    HangsUp();
  }

  /** The connection after the comparison that failed, with the DATA written. */
  function RunningOn(): Conn { Emit(Check(Forgetting()).(queue := [Out(2, LastData, Some(0))])) }

  lemma RunsOn()
    ensures Run(Forgetting(), [DoCheck] + ([DoEmit] + [])) == RunningOn()
    ensures var c := RunningOn();
      && c.violated && c.running && c.wire == [Hello(true, false, 0), Farewell, LastData]
      && c.reader == Ready(Loop) && c.writer == Sent(2, Some(0)) && !c.panicked && !c.broken
      && c.terminateAfter == Some(1) && Shown(c, Some(0)) == Some(2)
  {
    var c1 := Check(Forgetting());
    assert c1 == Forgetting().(writer := Idle);
    assert c1.queue == [Out(2, LastData, Some(0))];
    AfterEmit(c1);
    CheckOne(Forgetting(), [DoEmit] + []);
    hide Run, After;
    RunOne(c1, DoEmit, []);
    RunNone(RunningOn());
  }

  lemma ReadEnds(c: Conn)
    requires c.reader == Ready(Loop) && !c.panicked
    ensures Run(c, [ReadFails, Terminate] + []) == c.(failed := true, running := false, reader := Stopped)
  {
    var c1 := c.(failed := true, reader := Ending);
    assert After(c, ReadFails) == c1;
    assert After(c1, Terminate) == c.(failed := true, running := false, reader := Stopped);
    hide Run, After;
    RunTwo(c, ReadFails, Terminate, []);
    RunNone(After(c1, Terminate));
  }

  lemma HangsUp()
    ensures var d := Run(RunningOn(), [DoCheck] + ([ReadFails, Terminate] + []));
      d.violated && !d.running && !d.broken && !Says(d, Farewell)
  {
    RunsOn();
    hide RunningOn, Run;
    var c2 := RunningOn();
    CheckOne(c2, [ReadFails, Terminate] + []);
    assert Check(c2) == c2.(writer := Idle);
    hide Check;
    ReadEnds(Check(c2));
  }

  lemma Parted(last: seq<Step>)
    ensures Run(NewConn, [Receive(Plain), DoDispatch] + ([Get(0), Push, DoEmit]
        + ([DoCheck] + ([Receive(Make1), DoDispatch] + ([Receive(Bad), DoDispatch] + ([Get(0), Push, DoEmit]
        + ([Invoke(1, CallClose), Step.Queue(1, 0)] + last)))))))
      == Run(WrittenOut(Left(Joined()), 0), [Invoke(1, CallClose), Step.Queue(1, 0)] + last)
  {
    var r6 := [Invoke(1, CallClose), Step.Queue(1, 0)] + last;
    var r5 := [Get(0), Push, DoEmit] + r6;
    var r4 := [Receive(Bad), DoDispatch] + r5;
    assert Left(Joined()).queue == [] && Left(Joined()).writer == Idle && Left(Joined()).reader.Sending?;
    GreetsFirst([DoCheck] + ([Receive(Make1), DoDispatch] + r4));
    Joins(r4);
    BadArrives(Joined(), r5);
    Written(Left(Joined()), 0, r6);
    hide Run;
  }
}
