/** What the invariant of a stream's two ends is for: laws over whole runs. */
module PairLaws {
  import opened Base
  import opened Readers
  import opened Blocks
  import opened Streams
  import opened Pair

  /** What one end has read is always a prefix of what the other end wrote, whatever else happened. */
  lemma PrefixSafety(steps: seq<Step>)
    ensures var p := Run(Start, steps);
      p.y.read <= p.x.written && p.x.read <= p.y.written
  {
    hide Run, Held;
    StartSound();
    RunKeeps(Start, steps);
  }

  // Complete delivery.

  /** Nobody resets, and a write that ends the stream fits one frame. */
  predicate Gentle(s: Step) {
    !s.op.DoReset? && (s.op.DoWrite? && s.op.endStream ==> |s.op.data| <= MAX_PAYLOAD)
  }

  predicate LocalShut(s: Side) { s.ep.state.code.HalfLocal? || s.ep.state.code.Closed? }

  predicate RemoteShut(s: Side) { s.ep.state.code.HalfRemote? || s.ep.state.code.Closed? }

  predicate Untroubled(s: Side) { s.ep.state.err.None? && !s.ep.reader.closed }

  /** DATA packets of which only the last may end the stream. */
  predicate Tidy(ps: seq<Packet>) {
    forall i :: 0 <= i < |ps| ==> ps[i].Data? && (ps[i].endStream ==> i == |ps| - 1)
  }

  predicate EndsStream(ps: seq<Packet>) { ps != [] && ps[|ps| - 1].Data? && ps[|ps| - 1].endStream }

  ghost predicate Orderly(s: Side, r: Side) {
    && Untroubled(s) && s.due == s.written && Tidy(s.flying)
    && (LocalShut(s) <==> EndsStream(s.flying) || r.ended)
    && (RemoteShut(r) <==> r.ended)
    && (r.ended ==> s.flying == [])
  }

  ghost predicate Calm(p: Pair) { Inv(p) && Orderly(p.x, p.y) && Orderly(p.y, p.x) }

  lemma TidyAppend(a: seq<Packet>, b: seq<Packet>)
    requires Tidy(a) && Tidy(b) && b != [] && !EndsStream(a)
    ensures Tidy(a + b) && (EndsStream(a + b) <==> EndsStream(b))
  {
  }

  lemma SegmentsTidy(data: bytes, endStream: bool)
    requires endStream ==> |data| <= MAX_PAYLOAD
    ensures Tidy(Segments(data, endStream)) && (EndsStream(Segments(data, endStream)) <==> endStream)
  {
    SegmentsCarry(data, endStream);
  }

  lemma CalmAct(p: Pair, op: Op)
    requires Calm(p) && Gentle(Step(true, op))
    ensures Calm(Act(p, op))
  {
    ActKeeps(p, op);
    hide Inv, Held, Segments, Tidy, EndsStream, Take, TakeOutcome, Payloads;
    match op
    case DoWrite(data, endStream) =>
      SegmentsTidy(data, endStream);
      if CanSend(p.x) {
        TidyAppend(p.x.flying, Segments(data, endStream));
        assert Countable(data, endStream) == data;
      }
    case DoClose =>
      OneTidy();
      if CanSend(p.x) {
        TidyAppend(p.x.flying, [Data([], true, true)]);
      } else {
        assert p.x.flying + [] == p.x.flying;
      }
    case DoRead(n) => CalmRead(p, n);
    case Deliver =>
      if p.y.flying != [] && !Full(p.x.ep, p.y.flying[0]) {
        TidyTail(p.y.flying);
        assert p.x.flying + [] == p.x.flying;
      }
    case DoReset(_) => assert false;
  }

  lemma OneTidy()
    ensures Tidy([Data([], true, true)]) && EndsStream([Data([], true, true)])
  {
  }

  lemma TidyTail(ps: seq<Packet>)
    requires Tidy(ps) && ps != []
    ensures ps[0].Data? && Tidy(ps[1..])
    ensures ps[0].endStream ==> ps[1..] == [] && EndsStream(ps) && !EndsStream(ps[1..])
    ensures !ps[0].endStream ==> (EndsStream(ps[1..]) <==> EndsStream(ps))
  {
  }

  lemma CalmRead(p: Pair, n: nat)
    requires Calm(p)
    ensures Orderly(Act(p, DoRead(n)).x, p.y) && Orderly(p.y, Act(p, DoRead(n)).x)
  {
    assert NonEmpty(p.x.ep.reader.blocks);
    hide Inv, Held, Tidy, EndsStream, Take, TakeOutcome, NonEmpty;
    ReadKeepsFlags(p.x.ep, n);
  }

  lemma ReadKeepsFlags(e: Endpoint, n: nat)
    requires NonEmpty(e.reader.blocks)
    ensures AfterRead(e, n).state == e.state && AfterRead(e, n).reader.closed == e.reader.closed
  {
    hide Held, Take, TakeOutcome;
    TakeConserves(e.reader, n);
  }

  lemma CalmNext(p: Pair, s: Step)
    requires Calm(p) && Gentle(s)
    ensures Calm(Next(p, s))
  {
    hide Act, Flow, Sound, Orderly;
    CalmAct(if s.left then p else Swap(p), s.op);
  }

  lemma {:induction false} CalmRun(p: Pair, steps: seq<Step>)
    requires Calm(p) && forall s :: s in steps ==> Gentle(s)
    ensures Calm(Run(p, steps))
    decreases |steps|
  {
    hide Calm, Next, Gentle;
    if steps != [] {
      CalmNext(p, steps[0]);
      CalmRun(Next(p, steps[0]), steps[1..]);
    }
  }

  lemma StartCalm()
    ensures Calm(Start)
  {
    StartSound();
  }

  lemma {:induction false} TidyComing(ps: seq<Packet>)
    requires Tidy(ps)
    ensures Coming(ps) == Payloads(ps) && !StopOf(ps).ResetFirst?
  {
    if ps != [] {
      TidyTail(ps);
      TidyComing(ps[1..]);
    }
  }

  /** In gentle runs nothing is lost: read, waiting and in flight together are what was written. */
  lemma NothingLost(steps: seq<Step>)
    requires forall s :: s in steps ==> Gentle(s)
    ensures var p := Run(Start, steps);
      && p.y.read + Held(p.y.ep.reader) + Payloads(p.x.flying) == p.x.written
      && p.x.read + Held(p.x.ep.reader) + Payloads(p.y.flying) == p.y.written
  {
    StartCalm();
    CalmRun(Start, steps);
    var p := Run(Start, steps);
    hide Run, Held;
    OneWay(p.x, p.y);
    OneWay(p.y, p.x);
  }

  lemma OneWay(s: Side, r: Side)
    requires Flow(s, r) && Orderly(s, r) && Untroubled(r)
    ensures r.read + Held(r.ep.reader) + Payloads(s.flying) == s.written
  {
    hide Held, Coming, StopOf, Tidy;
    TidyComing(s.flying);
    if r.ended {
      assert Payloads(s.flying) == [];
    }
  }

  /**
   * Once the end of the stream has arrived, a Read never waits: it returns more of what was written
   * until all of it has been read, and from then on fails as closed.
   */
  lemma ReadToTheEnd(steps: seq<Step>, n: nat)
    requires (forall s :: s in steps ==> Gentle(s)) && n > 0
    requires Run(Start, steps).y.ended
    ensures var p := Run(Start, steps);
      var o := ReadOutcome(p.y.ep, n);
      && (p.y.read == p.x.written <==> o == Fail(ClosedStream))
      && (p.y.read != p.x.written ==> o.Got? && o.bs != [] && p.y.read + o.bs <= p.x.written)
  {
    StartCalm();
    CalmRun(Start, steps);
    var p := Run(Start, steps);
    hide Run, Held, Take, TakeOutcome;
    TakeConserves(p.y.ep.reader, n);
    var h, o := Held(p.y.ep.reader), TakeOutcome(p.y.ep.reader, n);
    assert p.y.read + h == p.x.written;
    if o.Got? {
      assert p.y.read + o.bs + Held(Take(p.y.ep.reader, n)) == p.x.written;
    }
  }

  /**
   * A Read is two moves, and frames can arrive in between. It reports the stream closed with bytes
   * unread exactly when its first move found nothing and the end of the stream, with those bytes before
   * it, arrived before the second.
   */
  lemma SplitRead(steps: seq<Step>, between: seq<Step>, n: nat)
    requires (forall s :: s in steps ==> Gentle(s)) && (forall s :: s in between ==> Gentle(s)) && n > 0
    ensures var p := Run(Start, steps);
      var q := Run(p, between);
      var o := SplitOutcome(p.y.ep, q.y.ep, n);
      (o == Fail(ClosedStream) && q.y.read != q.x.written)
      <==> (Held(p.y.ep.reader) == [] && q.y.ended && Held(q.y.ep.reader) != [])
  {
    StartCalm();
    CalmRun(Start, steps);
    var p := Run(Start, steps);
    CalmRun(p, between);
    var q := Run(p, between);
    CalmReader(p);
    CalmReader(q);
    if q.y.ended {
      Waiting(q);
    }
    TakeConserves(p.y.ep.reader, n);
    TakeConserves(q.y.ep.reader, n);
    hide Run, Held, Take, TakeOutcome, Calm;
  }

  lemma CalmReader(p: Pair)
    requires Calm(p)
    ensures NonEmpty(p.y.ep.reader.blocks) && !p.y.ep.reader.closed && p.y.ep.state.err.None?
    ensures p.y.ep.state.RecvData() == if p.y.ended then Some(ClosedStream) else None
  {
    hide Flow, Tidy, EndsStream, Held;
  }

  /** It happens: the last frame arrives between the two moves, and its byte goes unread. */
  lemma SplitReadLoses()
    ensures var between := [Step(true, DoWrite([7], true)), Step(false, Deliver)];
      var q := Run(Start, between);
      SplitOutcome(Start.y.ep, q.y.ep, 1) == Fail(ClosedStream) && q.y.read == [] && q.x.written == [7]
  {
    var a, b := Step(true, DoWrite([7], true)), Step(false, Deliver);
    var p1 := Next(Start, a);
    assert p1.x.flying == [Data([7], true, true)];
    var p2 := Next(p1, b);
    assert Run(Start, [a, b]) == p2 by {
      assert [a, b][1..] == [b] && [b][1..] == [];
      assert Run(p1, [b]) == Run(p2, []);
    }
  }

  function Reads(n: nat, k: nat): seq<Step> {
    if k == 0 then [] else [Step(false, DoRead(n))] + Reads(n, k - 1)
  }

  /** As many Reads as there are bytes waiting are enough to have read everything written. */
  lemma {:induction false} ReadsDrain(p: Pair, n: nat, k: nat)
    requires Calm(p) && p.y.ended && n > 0 && k >= |Held(p.y.ep.reader)|
    ensures Run(p, Reads(n, k)).y.read == p.x.written
    decreases k
  {
    hide Calm, Next;
    Waiting(p);
    if k > 0 {
      var s := Step(false, DoRead(n));
      assert Reads(n, k)[1..] == Reads(n, k - 1);
      CalmNext(p, s);
      ReadProgress(p, n);
      hide Held, Reads;
      ReadsDrain(Next(p, s), n, k - 1);
    }
  }

  lemma Waiting(p: Pair)
    requires Calm(p) && p.y.ended
    ensures p.y.read + Held(p.y.ep.reader) == p.x.written
  {
    hide Held, Coming, StopOf, Tidy, EndsStream;
  }

  lemma ReadProgress(p: Pair, n: nat)
    requires Calm(p) && p.y.ended && n > 0
    ensures var q := Next(p, Step(false, DoRead(n)));
      && q.y.ended && q.x.written == p.x.written
      && |Held(q.y.ep.reader)| <= |Held(p.y.ep.reader)|
      && (Held(p.y.ep.reader) != [] ==> |Held(q.y.ep.reader)| < |Held(p.y.ep.reader)|)
  {
    hide Held, Coming, StopOf, Tidy, EndsStream, Flow, Take, TakeOutcome;
    TakeConserves(p.y.ep.reader, n);
  }

  // A write that ends the stream.

  /** A side that cannot send stays so, and nothing more becomes due from it. */
  lemma SilentStays(p: Pair, s: Step)
    requires !CanSend(p.x)
    ensures var q := Next(p, s); !CanSend(q.x) && q.x.due == p.x.due && q.x.written == p.x.written
  {
    hide Segments, Take, TakeOutcome, Enqueued, Countable;
  }

  lemma {:induction false} SilentRun(p: Pair, steps: seq<Step>)
    requires !CanSend(p.x)
    ensures var q := Run(p, steps); !CanSend(q.x) && q.x.due == p.x.due
    decreases |steps|
  {
    hide Next, CanSend;
    if steps != [] {
      SilentStays(p, steps[0]);
      SilentRun(Next(p, steps[0]), steps[1..]);
    }
  }

  /**
   * A Write that ends the stream delivers at most its first 65535 bytes, whatever its length and
   * whatever happens before and after; exactly those once its end of stream has been accepted.
   */
  lemma EndingWriteDelivers(before: seq<Step>, data: bytes, after: seq<Step>)
    requires CanSend(Run(Start, before).x)
    ensures var p := Run(Start, before);
      var q := Run(Next(p, Step(true, DoWrite(data, true))), after);
      var all := p.x.written + data[..Min(|data|, MAX_PAYLOAD)];
      && Accepted(q.y) <= all && q.y.read <= all
      && (q.y.ended ==> Accepted(q.y) == all)
  {
    hide Run, Held, Segments;
    var p := Run(Start, before);
    var w := Next(p, Step(true, DoWrite(data, true)));
    StartSound();
    RunKeeps(Start, before);
    NextKeeps(p, Step(true, DoWrite(data, true)));
    RunKeeps(w, after);
    SilentRun(w, after);
  }

  // Lifecycle.

  predicate Forward(a: Code, b: Code) { a == b || a.Rank() < b.Rank() }

  /** The DATA packets among those sent. */
  function DataSent(ps: seq<Packet>): nat {
    if ps == [] then 0 else (if ps[|ps| - 1].Data? then 1 else 0) + DataSent(ps[..|ps| - 1])
  }

  /** From one state of a side to a later one. */
  ghost predicate Later(a: Side, b: Side) {
    && Forward(a.ep.state.code, b.ep.state.code)
    && (a.ep.state.err.Some? ==> b.ep.state.err == a.ep.state.err)
    && (a.ep.state.code.Closed? ==> a.resets == b.resets)
    && (LocalShut(a) ==> DataSent(b.sent) == DataSent(a.sent) && b.written == a.written)
    && (a.ep.reader.closed ==> b.ep.reader.closed)
  }

  lemma SentMore(a: seq<Packet>, p: Packet)
    requires p.Reset?
    ensures DataSent(a + [p]) == DataSent(a)
  {
    assert (a + [p])[..|a|] == a;
  }

  lemma ActLater(p: Pair, op: Op)
    requires Inv(p)
    ensures Later(p.x, Act(p, op).x) && Later(p.y, Act(p, op).y)
  {
    hide Flow, Held, Segments, DataSent, Countable;
    assert p.x.sent + [] == p.x.sent;
    match op
    case DoReset(code) => SentMore(p.x.sent, Packet.Reset(code));
    case Deliver => SentMore(p.x.sent, Packet.Reset(STREAM_CLOSED));
    case _ =>
  }

  lemma LaterTransitive(a: Side, b: Side, c: Side)
    requires Later(a, b) && Later(b, c)
    ensures Later(a, c)
  {
    hide DataSent;
  }

  /**
   * Over any run: a stream's state only moves forward, its reset error never changes once set, and
   * once Write(..., true), CloseLocal or a reset has shut it locally it sends no further DATA.
   */
  lemma {:induction false} Lifecycle(p: Pair, steps: seq<Step>)
    requires Inv(p)
    ensures Later(p.x, Run(p, steps).x) && Later(p.y, Run(p, steps).y)
    decreases |steps|
  {
    hide Inv, Later, Act;
    if steps == [] {
      SelfLater(p.x);
      SelfLater(p.y);
    } else {
      var q := Next(p, steps[0]);
      SwapInv(p);
      ActLater(if steps[0].left then p else Swap(p), steps[0].op);
      NextKeeps(p, steps[0]);
      Lifecycle(q, steps[1..]);
      LaterTransitive(p.x, q.x, Run(p, steps).x);
      LaterTransitive(p.y, q.y, Run(p, steps).y);
    }
  }

  lemma SelfLater(s: Side)
    ensures Later(s, s)
  {
  }

  lemma SwapInv(p: Pair)
    ensures Inv(Swap(p)) <==> Inv(p)
  {
    hide Flow, Sound;
  }

  /** In every reachable state a reset error means a closed stream and reader, and Reset was granted at most once. */
  lemma ResetAtMostOnce(steps: seq<Step>)
    ensures var p := Run(Start, steps);
      && p.x.resets <= 1 && p.y.resets <= 1
      && (p.x.ep.state.err.Some? ==> p.x.ep.state.code.Closed? && p.x.ep.reader.closed)
      && (p.y.ep.state.err.Some? ==> p.y.ep.state.code.Closed? && p.y.ep.reader.closed)
  {
    hide Run, Flow;
    StartSound();
    RunKeeps(Start, steps);
  }

  // Two closed ends.

  predicate BothClosed(p: Pair) { p.x.ep.state.code.Closed? && p.y.ep.state.code.Closed? }

  /** Between closed ends every delivery is answered by one reset and nothing else is sent. */
  lemma ClosedAct(p: Pair, op: Op)
    requires BothClosed(p)
    ensures var q := Act(p, op);
      && BothClosed(q)
      && (op.Deliver? && p.y.flying != [] ==>
            q.x.flying == p.x.flying + [Packet.Reset(STREAM_CLOSED)] && q.y.flying == p.y.flying[1..])
      && (!op.Deliver? || p.y.flying == [] ==> q.x.flying == p.x.flying && q.y.flying == p.y.flying)
  {
    hide Held, Segments, Take, TakeOutcome, Countable, Enqueued;
    assert p.x.flying + [] == p.x.flying;
  }

  /** The number of packets in flight between closed ends never changes again. */
  lemma {:induction false} ClosedConserves(p: Pair, steps: seq<Step>)
    requires BothClosed(p)
    ensures var q := Run(p, steps);
      BothClosed(q) && |q.x.flying| + |q.y.flying| == |p.x.flying| + |p.y.flying|
    decreases |steps|
  {
    hide BothClosed, Act;
    if steps != [] {
      ClosedSwap(p);
      ClosedAct(if steps[0].left then p else Swap(p), steps[0].op);
      ClosedSwap(Act(Swap(p), steps[0].op));
      ClosedConserves(Next(p, steps[0]), steps[1..]);
    }
  }

  lemma ClosedSwap(p: Pair)
    ensures BothClosed(Swap(p)) <==> BothClosed(p)
  {
  }
}
