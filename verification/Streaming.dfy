/**
 * Server-to-client streaming from end to end: what the server's context writes, through the
 * stream's two ends in any interleaving, is what the client's context receives.
 */
module Streaming {
  import opened Base
  import opened Readers
  import opened Values
  import opened Codec
  import opened Blocks
  import opened Streams
  import opened Pair
  import opened PairLaws
  import opened Messages
  import opened MessageLoops
  import opened Contexts

  // The blocks at the reader are the payloads that were sent, whenever it looks.

  /** The payloads a block reader keeps: empty ones are dropped. */
  function BlocksOf(ps: seq<Packet>): seq<bytes> {
    if ps == [] then []
    else (if ps[0].Data? && ps[0].payload != [] then [ps[0].payload] else []) + BlocksOf(ps[1..])
  }

  lemma {:induction false} BlocksAppend(a: seq<Packet>, b: seq<Packet>)
    ensures BlocksOf(a + b) == BlocksOf(a) + BlocksOf(b)
  {
    if a == [] {
      assert a + b == b;
    } else {
      assert (a + b)[1..] == a[1..] + b;
      BlocksAppend(a[1..], b);
    }
  }

  lemma {:induction false} BlocksNonEmpty(ps: seq<Packet>)
    ensures NonEmpty(BlocksOf(ps))
  {
    if ps != [] {
      BlocksNonEmpty(ps[1..]);
    }
  }

  /** An end of stream that has arrived, or is about to, was sent. */
  ghost predicate Marks(s: Side, r: Side) { r.ended || EndsStream(s.flying) ==> HasEnd(s.sent) }

  lemma MarksSent(s: Side, r: Side, s': Side, out: seq<Packet>)
    requires Marks(s, r) && s'.flying == s.flying + out && s'.sent == s.sent + out
    ensures Marks(s', r)
  {
    if HasEnd(s.sent) {
      var i :| 0 <= i < |s.sent| && s.sent[i].Data? && s.sent[i].endStream;
      assert s'.sent[i].endStream;
    }
    if out == [] {
      assert s'.flying == s.flying;
    } else if EndsStream(s'.flying) {
      assert s'.sent[|s'.sent| - 1] == s'.flying[|s'.flying| - 1];
    }
  }

  lemma MarksDelivered(s: Side, r: Side, s': Side, r': Side)
    requires Marks(s, r) && s.flying != [] && s'.flying == s.flying[1..] && s'.sent == s.sent
    requires Tidy(s.flying) && (r'.ended ==> r.ended || s.flying[0].endStream)
    ensures Marks(s', r')
  {
    TidyTail(s.flying);
  }

  /** What `r` has accepted, block by block, and what is in flight make up what `s` sent. */
  ghost predicate Track(s: Side, r: Side) {
    && r.taken + BlocksOf(s.flying) == BlocksOf(s.sent)
    && NonEmpty(r.taken) && r.read <= Flat(r.taken)
    && Stands(r.ep.reader, r.taken, |r.read|)
    && Marks(s, r)
  }

  lemma TrackSender(s: Side, r: Side, s': Side, out: seq<Packet>)
    requires Track(s, r) && s'.flying == s.flying + out && s'.sent == s.sent + out
    ensures Track(s', r)
  {
    hide Stands, BlocksOf, Flat, NonEmpty, Marks;
    MarksSent(s, r, s', out);
    BlocksAppend(s.flying, out);
    BlocksAppend(s.sent, out);
    assert r.taken + (BlocksOf(s.flying) + BlocksOf(out)) == BlocksOf(s.sent) + BlocksOf(out);
  }

  lemma TrackReceiver(s: Side, r: Side, r': Side)
    requires Track(s, r) && r'.taken == r.taken && r'.read == r.read && r'.ep.reader == r.ep.reader
    requires r'.ended == r.ended
    ensures Track(s, r')
  {
    hide BlocksOf, Flat, Drop;
  }

  lemma TrackRead(s: Side, r: Side, n: nat)
    requires Track(s, r) && Untroubled(r) && NonEmpty(r.ep.reader.blocks)
    ensures var o := ReadOutcome(r.ep, n);
      Track(s, r.(ep := AfterRead(r.ep, n), read := r.read + (if o.Got? then o.bs else [])))
  {
    hide BlocksOf, Take, TakeOutcome, Stands, Flat;
    QueueIsInput(r.ep.reader, r.taken, |r.read|, n, EOF, {});
    TakeConserves(r.ep.reader, n);
    assert r.read + [] == r.read;
    var o := TakeOutcome(r.ep.reader, n);
    if o.Got? {
      var inp := FromBlocks(r.taken, EOF, {});
      assert |r.read + o.bs| == Read(inp, |r.read|, NoLimit(inp), n).pos <= |inp.data|;
      assert r.read + o.bs == inp.data[..|r.read|] + inp.data[|r.read|..|r.read + o.bs|] <= inp.data;
    }
  }

  lemma TrackDeliver(s: Side, r: Side, s': Side, r': Side)
    requires Track(s, r) && !r.ep.reader.closed && s.flying != [] && s.flying[0].Data?
    requires s' == s.(flying := s.flying[1..])
    requires r'.read == r.read && r'.ep.reader == Enqueued(r.ep.reader, s.flying[0].payload)
    requires Tidy(s.flying) && (r'.ended ==> r.ended || s.flying[0].endStream)
    requires r'.taken == r.taken + (if s.flying[0].payload != [] then [s.flying[0].payload] else [])
    ensures Track(s', r')
  {
    MarksDelivered(s, r, s', r');
    var b := s.flying[0].payload;
    assert BlocksOf(s.flying) == (if b != [] then [b] else []) + BlocksOf(s.flying[1..]);
    hide Flat, Marks, Tidy, BlocksOf, Drop, Stands, NonEmpty;
    if b != [] {
      TakenMore(r, r', b);
      assert r.taken + ([b] + BlocksOf(s'.flying)) == r'.taken + BlocksOf(s'.flying);
    } else {
      assert r.taken + [] == r.taken && [] + BlocksOf(s'.flying) == BlocksOf(s'.flying);
      assert r'.ep.reader == r.ep.reader;
    }
  }

  /** One more block accepted. */
  lemma TakenMore(r: Side, r': Side, b: bytes)
    requires NonEmpty(r.taken) && r.read <= Flat(r.taken) && Stands(r.ep.reader, r.taken, |r.read|) && b != []
    requires r'.read == r.read && r'.taken == r.taken + [b] && r'.ep.reader == Enqueued(r.ep.reader, b)
    ensures NonEmpty(r'.taken) && r'.read <= Flat(r'.taken) && Stands(r'.ep.reader, r'.taken, |r'.read|)
  {
    hide Flat, Drop;
    DropAppend(r.taken, [b], |r.read|);
    FlatConcat(r.taken, [b]);
    assert (if r.ep.reader.buf == [] then [] else [r.ep.reader.buf]) + (r.ep.reader.blocks + [b])
      == Drop(r.taken, |r.read|) + [b];
  }

  lemma TrackAct(p: Pair, op: Op)
    requires Calm(p) && Gentle(Step(true, op)) && Track(p.x, p.y) && Track(p.y, p.x)
    ensures var q := Act(p, op); Track(q.x, q.y) && Track(q.y, q.x)
  {
    var q := Act(p, op);
    hide Track, Flow, Tidy, EndsStream, Segments, Take, TakeOutcome, Held;
    assert p.x.flying + [] == p.x.flying && p.x.sent + [] == p.x.sent;
    match op
    case DoWrite(data, endStream) =>
      if CanSend(p.x) {
        TrackSender(p.x, p.y, q.x, Segments(data, endStream));
        TrackReceiver(p.y, p.x, q.x);
      }
    case DoClose =>
      TrackSender(p.x, p.y, q.x, CloseCall(p.x.ep).out);
      TrackReceiver(p.y, p.x, q.x);
    case DoRead(n) =>
      TrackSender(p.x, p.y, q.x, []);
      TrackRead(p.y, p.x, n);
    case Deliver =>
      if p.y.flying != [] && !Full(p.x.ep, p.y.flying[0]) {
        TidyTail(p.y.flying);
        TrackDeliver(p.y, p.x, q.y, q.x);
        TrackSender(p.x, p.y, q.x, []);
        TrackReceiver(q.x, p.y, q.y);
      }
    case DoReset(_) => assert false;
  }

  lemma {:induction false} TrackRun(p: Pair, steps: seq<Step>)
    requires Calm(p) && Track(p.x, p.y) && Track(p.y, p.x) && forall s :: s in steps ==> Gentle(s)
    ensures var q := Run(p, steps); Calm(q) && Track(q.x, q.y) && Track(q.y, q.x)
    decreases |steps|
  {
    hide Calm, Track, Act;
    if steps != [] {
      var s := steps[0];
      CalmNext(p, s);
      CalmSwap(p);
      TrackAct(if s.left then p else Swap(p), s.op);
      TrackRun(Next(p, s), steps[1..]);
    }
  }

  lemma CalmSwap(p: Pair)
    ensures Calm(p) <==> Calm(Swap(p))
    ensures forall op :: Gentle(Step(true, op)) <==> Gentle(Step(false, op))
  {
    hide Flow, Sound, Orderly;
  }

  lemma StartTracked()
    ensures Track(Start.x, Start.y) && Track(Start.y, Start.x)
  {
  }

  /** The Read at `r` as a Read of `blocks`. */
  ghost predicate Agrees(r: Side, n: nat, blocks: seq<bytes>, known: set<bytes>) {
    var inp := FromBlocks(blocks, ClosedStream, known);
    && |r.read| <= |inp.data| && r.read == inp.data[..|r.read|]
    && match ReadOutcome(r.ep, n)
       case Got(bs) => Read(inp, |r.read|, NoLimit(inp), n) == Ok(bs, |r.read| + |bs|)
       case Fail(e) => r.ended && Read(inp, |r.read|, NoLimit(inp), n) == Err(e, |r.read|)
       case Waits => !r.ended
  }

  /**
   * Whenever in a gentle run a Read at the receiving end returns bytes, they are those that a single
   * Read would return at that place from everything that is ever sent - what has been and, as long as
   * the end of the stream has not been sent, whatever `future` brings; and it fails as closed only at
   * the end.
   */
  lemma ReadsOfTheWhole(steps: seq<Step>, future: seq<Packet>, n: nat, known: set<bytes>)
    requires forall s :: s in steps ==> Gentle(s)
    requires HasEnd(Run(Start, steps).x.sent) ==> future == []
    ensures var p := Run(Start, steps);
      Agrees(p.y, n, BlocksOf(p.x.sent + future), known)
  {
    StartCalm();
    StartTracked();
    TrackRun(Start, steps);
    hide Run, Calm, BlocksOf, Agrees, HasEnd;
    var p := Run(Start, steps);
    BlocksAppend(p.x.sent, future);
    BlocksNonEmpty(future);
    NoBlocks();
    assert p.y.ended ==> HasEnd(p.x.sent);
    WholeOfSide(p, BlocksOf(future), n, known);
  }

  lemma WholeOfSide(p: Pair, future: seq<bytes>, n: nat, known: set<bytes>)
    requires Calm(p) && Track(p.x, p.y) && NonEmpty(future) && (p.y.ended ==> future == [])
    ensures Agrees(p.y, n, BlocksOf(p.x.sent) + future, known)
  {
    CalmFacts(p);
    var q, taken, more := p.y.ep.reader, p.y.taken, BlocksOf(p.x.flying) + future;
    var all, at := BlocksOf(p.x.sent) + future, |p.y.read|;
    WholeQueue(p.x, p.y, future);
    var later := Queue(q.blocks + more, q.buf, false);
    NoBlocks();
    hide Calm, Track, BlocksOf, Read, Flat, NonEmpty, Stands, TakeOutcome;
    QueueIsInput(later, all, at, n, ClosedStream, known);
    if q.buf != [] || q.blocks != [] {
      SameTake(q, more, n);
    } else {
      EmptyWaits(n);
    }
  }

  /** The queue as it will be once everything in flight has arrived. */
  lemma WholeQueue(s: Side, r: Side, future: seq<bytes>)
    requires Track(s, r) && NonEmpty(future)
    ensures var q, all := r.ep.reader, BlocksOf(s.sent) + future;
      && NonEmpty(all) && |r.read| <= |Flat(all)| && r.read == Flat(all)[..|r.read|]
      && Stands(Queue(q.blocks + (BlocksOf(s.flying) + future), q.buf, false), all, |r.read|)
  {
    hide BlocksOf, Drop, Flat, Marks;
    var q, more := r.ep.reader, BlocksOf(s.flying) + future;
    BlocksNonEmpty(s.flying);
    BlocksNonEmpty(s.sent);
    assert BlocksOf(s.sent) + future == r.taken + more;
    DropAppend(r.taken, more, |r.read|);
    FlatConcat(r.taken, more);
    assert (if q.buf == [] then [] else [q.buf]) + (q.blocks + more)
      == ((if q.buf == [] then [] else [q.buf]) + q.blocks) + more;
  }

  lemma CalmFacts(p: Pair)
    requires Calm(p)
    ensures Untroubled(p.y) && NonEmpty(p.y.ep.reader.blocks)
    ensures p.y.ep.state.RecvData() == if p.y.ended then Some(ClosedStream) else None
    ensures p.y.ended ==> p.x.flying == []
  {
    hide Flow, Tidy, EndsStream;
  }

  lemma EmptyWaits(n: nat)
    ensures TakeOutcome(Queue([], [], false), n) == Waits
  {
  }

  lemma NoBlocks()
    ensures BlocksOf([]) == []
  {
  }

  lemma SameTake(q: Queue, more: seq<bytes>, n: nat)
    requires !q.closed && NonEmpty(q.blocks) && (q.buf != [] || q.blocks != [])
    ensures TakeOutcome(Queue(q.blocks + more, q.buf, false), n) == TakeOutcome(q, n)
    ensures TakeOutcome(q, n).Got?
  {
  }

  // The messages, one block each.

  function Wraps(ms: seq<Message<Value>>): seq<bytes> {
    if ms == [] then [] else [Wrap(ms[0])] + Wraps(ms[1..])
  }

  lemma {:induction false} WrapsNonEmpty(ms: seq<Message<Value>>)
    ensures NonEmpty(Wraps(ms)) && Flat(Wraps(ms)) == Join(AllPieces(ms))
  {
    hide Wrap, Join, MessagePieces;
    StreamStep(ms);
    if ms == [] {
      JoinNil();
    } else {
      WrapBytes(ms[0]);
      WrapsNonEmpty(ms[1..]);
      JoinConcat(MessagePieces(ms[0]), AllPieces(ms[1..]));
    }
  }

  /** Cuts between messages are never inside a body. */
  lemma {:induction false} WholeBetween(cuts: set<nat>, pos: nat, ps: seq<Piece>)
    requires forall c :: pos < c < pos + |Join(ps)| ==> c !in cuts
    ensures WholeBodies(cuts, pos, ps)
    decreases |ps|
  {
    if ps != [] {
      WholeBetween(cuts, pos + |ps[0].bs|, ps[1..]);
    }
  }

  lemma {:induction false} MessagesWhole(cuts: set<nat>, o: nat, ms: seq<Message<Value>>)
    requires forall c :: c > o ==> (c in cuts <==> c in Ends(o, Wraps(ms)))
    ensures WholeBodies(cuts, o, AllPieces(ms))
    decreases |ms|
  {
    hide Wrap, MessagePieces, WholeBodies, Join;
    StreamStep(ms);
    if ms == [] {
      WholeOfNone(cuts, o);
    } else {
      var b := |Wrap(ms[0])|;
      assert Wraps(ms)[1..] == Wraps(ms[1..]);
      MessagesWhole(cuts, o + b, ms[1..]);
      forall c | o < c < o + b ensures c !in cuts {
        if c in cuts {
          EndsBeyond(o, Wraps(ms), c);
        }
      }
      WholeBetween(cuts, o, MessagePieces(ms[0]));
      WholeConcat(cuts, o, MessagePieces(ms[0]), AllPieces(ms[1..]));
    }
  }

  lemma WholeOfNone(cuts: set<nat>, o: nat)
    ensures WholeBodies(cuts, o, [])
  {
  }

  lemma MessagesLaid(ms: seq<Message<Value>>, tail: Error, known: set<bytes>)
    ensures var inp := FromBlocks(Wraps(ms), tail, known);
      Laid(inp, 0, NoLimit(inp), AllPieces(ms)) && |inp.data| == |Join(AllPieces(ms))|
  {
    hide Wraps, AllPieces, Join, WholeBodies, Flat;
    WrapsNonEmpty(ms);
    var inp := FromBlocks(Wraps(ms), tail, known);
    MessagesWhole(inp.cuts, 0, ms);
    assert inp.data[0..|inp.data|] == inp.data;
  }

  // The server's half.

  function Items(vs: seq<Value>): seq<Message<Value>> {
    if vs == [] then [] else [StreamItem(vs[0])] + Items(vs[1..])
  }

  function Conversation(resp: Message<Value>, vs: seq<Value>): seq<Message<Value>> {
    [resp] + ([StartStream] + (Items(vs) + [EndStream]))
  }

  function Frames(ms: seq<Message<Value>>): seq<Packet> {
    if ms == [] then [] else [Data(Wrap(ms[0]), true, ms[0].EndStream?)] + Frames(ms[1..])
  }

  predicate Fits(m: Message<Value>) { |Wrap(m)| <= MAX_PAYLOAD }

  ghost function SendAll(c: Ctx, e: Endpoint, vs: seq<Value>): Sent
    decreases |vs|
  {
    if vs == [] then Sent(c, e, [], None)
    else
      var s := Send(c, e, vs[0]);
      if s.err.Some? then s
      else
        var t := SendAll(s.ctx, s.ep, vs[1..]);
        t.(out := s.out + t.out)
  }

  /** SendResponse, a Send for every value, EndSend. */
  ghost function Serve(c: Ctx, e: Endpoint, resp: Message<Value>, vs: seq<Value>): Sent
    requires resp.Response?
  {
    var r := SendResponse(c, e, resp);
    if r.err.Some? then r
    else
      var s := SendAll(r.ctx, r.ep, vs);
      if s.err.Some? then s.(out := r.out + s.out)
      else
        var t := EndSend(s.ctx, s.ep);
        t.(out := r.out + (s.out + t.out))
  }

  predicate Ready(c: Ctx) { c.hasSend && c.err.None? && c.sendError.None? }

  lemma OneFrame(e: Endpoint, m: Message<Value>)
    requires Fits(m) && e.state.Send().None?
    ensures var r := WriteCall(e, Wrap(m), m.EndStream?);
      && r.err == None && r.out == Frames([m])
      && (!m.EndStream? ==> r.ep == e)
  {
    hide Wrap;
    assert Frames([m]) == [Data(Wrap(m), true, m.EndStream?)] + Frames([]);
  }

  lemma {:induction false} FramesAppend(a: seq<Message<Value>>, b: seq<Message<Value>>)
    ensures Frames(a + b) == Frames(a) + Frames(b)
  {
    hide Wrap;
    if a == [] {
      assert a + b == b;
    } else {
      assert (a + b)[1..] == a[1..] + b;
      FramesAppend(a[1..], b);
    }
  }

  lemma {:induction false} SendAllFrames(c: Ctx, e: Endpoint, vs: seq<Value>)
    requires Ready(c) && c.sendStarted && e.state.Send().None?
    requires AllSupported(vs) && forall v :: v in vs ==> Fits(StreamItem(v))
    ensures SendAll(c, e, vs) == Sent(c, e, Frames(Items(vs)), None)
    decreases |vs|
  {
    hide Wrap, WriteCall, Supported;
    if vs != [] {
      OneFrame(e, StreamItem(vs[0]));
      SendAllFrames(c, e, vs[1..]);
      FramesAppend([StreamItem(vs[0])], Items(vs[1..]));
    }
  }

  /** What the server writes: the response, the start, the items and the end, a frame each. */
  lemma ServerSends(c: Ctx, e: Endpoint, resp: Message<Value>, vs: seq<Value>)
    requires resp.Response? && resp.streaming && vs != [] && e.state.Send().None?
    requires c.err.None? && c.sendError.None?
    requires AllSupported(resp.params) && AllSupported(vs)
    requires Fits(resp) && forall v :: v in vs ==> Fits(StreamItem(v))
    ensures Serve(c, e, resp, vs).err == None
    ensures Serve(c, e, resp, vs).out == Frames(Conversation(resp, vs))
  {
    ShortMessages();
    hide Wrap, WriteCall, Supported, Frames, AllSupported, Items;
    OneFrame(e, resp);
    OneFrame(e, StartStream);
    OneFrame(e, EndStream);
    var c1 := c.(hasSend := true, sendStarted := false);
    var c2 := c1.(sendStarted := true);
    SendFirst(c1, e, vs);
    FramesAppend([resp], [StartStream] + (Items(vs) + [EndStream]));
    FramesAppend([StartStream], Items(vs) + [EndStream]);
    FramesAppend(Items(vs), [EndStream]);
    var a, b, d := Frames([StartStream]), Frames(Items(vs)), Frames([EndStream]);
    assert (a + b) + d == a + (b + d);
  }

  lemma SendFirst(c: Ctx, e: Endpoint, vs: seq<Value>)
    requires Ready(c) && !c.sendStarted && e.state.Send().None? && vs != []
    requires AllSupported(vs) && forall v :: v in vs ==> Fits(StreamItem(v))
    ensures SendAll(c, e, vs) == Sent(c.(sendStarted := true), e, Frames([StartStream]) + Frames(Items(vs)), None)
  {
    ShortMessages();
    hide Wrap, WriteCall, Supported, Frames;
    var c' := c.(sendStarted := true);
    OneFrame(e, StartStream);
    OneFrame(e, StreamItem(vs[0]));
    SendAllFrames(c', e, vs[1..]);
    FramesAppend([StreamItem(vs[0])], Items(vs[1..]));
    var a, b, d := Frames([StartStream]), Frames([StreamItem(vs[0])]), Frames(Items(vs[1..]));
    assert (a + b) + d == a + (b + d);
  }

  lemma ShortMessages()
    ensures Fits(StartStream) && Fits(EndStream)
  {
    hide Join, Wrap;
    WrapBytes(StartStream);
    WrapBytes(EndStream);
    JoinNil();
  }

  lemma {:induction false} FramesBlocks(ms: seq<Message<Value>>)
    ensures BlocksOf(Frames(ms)) == Wraps(ms)
  {
    hide Wrap;
    if ms != [] {
      WrapBytes(ms[0]);
      FramesBlocks(ms[1..]);
      assert Frames(ms)[1..] == Frames(ms[1..]);
    }
  }

  // The client's half.

  /** What `k` calls of Recv return. */
  function Recvs(c: Ctx, inp: Input, pos: nat, k: nat): seq<Result>
    requires pos <= |inp.data|
    decreases k
  {
    if k == 0 then []
    else
      var r := Recv(c, inp, pos);
      [r.result] + Recvs(r.ctx, inp, r.pos, k - 1)
  }

  function Arrivals(vs: seq<Value>): seq<Result> {
    if vs == [] then [] else [Item(Norm(vs[0]))] + Arrivals(vs[1..])
  }

  function EndedTimes(k: nat): seq<Result> {
    if k == 0 then [] else [Failed(StreamEnded)] + EndedTimes(k - 1)
  }

  lemma {:induction false} EndedForGood(c: Ctx, inp: Input, pos: nat, k: nat)
    requires c.hasRecv && c.err.None? && c.recvError == Some(StreamEnded) && pos <= |inp.data|
    ensures Recvs(c, inp, pos, k) == EndedTimes(k)
    decreases k
  {
    if k > 0 {
      EndedForGood(c, inp, pos, k - 1);
    }
  }

  predicate Listening(c: Ctx) { c.hasRecv && c.err.None? && c.recvError.None? }

  /** The first of several messages in a row. */
  lemma HeadMessage(m: Message<Value>, rest: seq<Message<Value>>, inp: Input, pos: nat)
    requires Good(m, inp.known) && CountsFit(m) && Laid(inp, pos, NoLimit(inp), AllPieces([m] + rest))
    ensures pos + |Wrap(m)| <= |inp.data|
    ensures ReadMessage(inp, pos) == Ok(NormMessage(m), pos + |Wrap(m)|)
    ensures ReadExpected(Kind(m), inp, pos) == Ok(NormMessage(m), pos + |Wrap(m)|)
    ensures Laid(inp, pos + |Wrap(m)|, NoLimit(inp), AllPieces(rest))
  {
    hide *;
    var ms := [m] + rest;
    assert ms[0] == m && ms[1..] == rest;
    StreamStep(ms);
    LaidInside(inp, pos, NoLimit(inp), AllPieces(ms));
    LaidConcat(inp, pos, NoLimit(inp), MessagePieces(m), AllPieces(rest));
    MessageRoundTrip(m, inp, pos);
  }

  lemma {:induction false} RecvTheRest(c: Ctx, vs: seq<Value>, inp: Input, pos: nat, k: nat)
    requires Listening(c) && c.recvStarted
    requires forall v :: v in vs ==> Good(StreamItem(v), inp.known)
    requires Laid(inp, pos, NoLimit(inp), AllPieces(Items(vs) + [EndStream]))
    ensures pos <= |inp.data|
    ensures Recvs(c, inp, pos, |vs| + k) == Arrivals(vs) + EndedTimes(k)
    decreases |vs|, k
  {
    hide Laid, AllPieces, ReadMessage, Good, Norm, MessagePieces, Wrap, Join, ReadExpected;
    if vs == [] {
      GoodEnd(inp.known);
      assert Items(vs) + [EndStream] == [EndStream] + [];
      HeadMessage(EndStream, [], inp, pos);
      if k > 0 {
        EndedForGood(c.(recvError := Some(StreamEnded)), inp, pos + |Wrap(EndStream)|, k - 1);
      }
    } else {
      var m := StreamItem(vs[0]);
      assert Items(vs) + [EndStream] == [m] + (Items(vs[1..]) + [EndStream]);
      HeadMessage(m, Items(vs[1..]) + [EndStream], inp, pos);
      RecvTheRest(c, vs[1..], inp, pos + |Wrap(m)|, k);
    }
  }

  lemma GoodEnd(known: set<bytes>)
    ensures Good(EndStream, known) && Good(StartStream, known)
  {
    hide Join;
    ShortMessages();
  }

  /**
   * What the client gets from the conversation: the response, then from the calls of Recv every
   * value in normal form, in order, and the end of the stream from every later call.
   */
  lemma ClientReceives(c: Ctx, resp: Message<Value>, vs: seq<Value>, inp: Input, k: nat)
    requires resp.Response? && Good(resp, inp.known) && CountsFit(resp) && vs != []
    requires forall v :: v in vs ==> Good(StreamItem(v), inp.known)
    requires Listening(c) && !c.recvStarted
    requires Laid(inp, 0, NoLimit(inp), AllPieces(Conversation(resp, vs)))
    ensures |Wrap(resp)| <= |inp.data|
    ensures ReadExpected(2, inp, 0) == Ok(NormMessage(resp), |Wrap(resp)|)
    ensures Recvs(c, inp, |Wrap(resp)|, |vs| + k) == Arrivals(vs) + EndedTimes(k)
  {
    hide *;
    var tail := Items(vs) + [EndStream];
    ConversationIs(resp, vs);
    HeadMessage(resp, [StartStream] + tail, inp, 0);
    GoodEnd(inp.known);
    StartFits();
    var p, q := |Wrap(resp)|, |Wrap(resp)| + |Wrap(StartStream)|;
    HeadMessage(StartStream, tail, inp, p);
    ListeningStarts(c);
    RecvTheRest(c.(recvStarted := true), vs, inp, q, k);
    RecvStarts(c, inp, p, q, |vs| + k);
  }

  lemma ConversationIs(resp: Message<Value>, vs: seq<Value>)
    ensures Conversation(resp, vs) == [resp] + ([StartStream] + (Items(vs) + [EndStream]))
    ensures resp.Response? ==> Kind(resp) == 2
  {
  }

  lemma ListeningStarts(c: Ctx)
    requires Listening(c)
    ensures Listening(c.(recvStarted := true))
  {
  }

  lemma StartFits()
    ensures CountsFit(StartStream) && NormMessage(StartStream) == StartStream && CountsFit(EndStream)
  {
  }

  /** The first Recv also takes the start of the stream. */
  lemma RecvStarts(c: Ctx, inp: Input, p: nat, q: nat, k: nat)
    requires Listening(c) && !c.recvStarted && p <= q <= |inp.data| && k > 0
    requires ReadMessage(inp, p) == Ok(StartStream, q)
    ensures Recvs(c, inp, p, k) == Recvs(c.(recvStarted := true), inp, q, k)
  {
    hide ReadMessage, RecvItem;
  }

  lemma {:induction false} FramesEnd(ms: seq<Message<Value>>, i: nat)
    requires i < |Frames(ms)|
    ensures |Frames(ms)| == |ms| && Frames(ms)[i].Data? && (Frames(ms)[i].endStream <==> ms[i].EndStream?)
  {
    hide Wrap;
    assert Frames(ms)[1..] == Frames(ms[1..]);
    if i > 0 {
      FramesEnd(ms[1..], i - 1);
    } else if |Frames(ms[1..])| > 0 {
      FramesEnd(ms[1..], 0);
    }
  }

  lemma {:induction false} ItemsAre(vs: seq<Value>, i: nat)
    requires i < |Items(vs)|
    ensures |Items(vs)| == |vs| && Items(vs)[i].StreamItem?
  {
    if i > 0 {
      ItemsAre(vs[1..], i - 1);
    } else if |Items(vs[1..])| > 0 {
      ItemsAre(vs[1..], 0);
    }
  }

  /** Only the last frame of a conversation ends the stream, so sending the end is having sent it all. */
  lemma EndIsLast(resp: Message<Value>, vs: seq<Value>, sent: seq<Packet>)
    requires resp.Response? && sent <= Frames(Conversation(resp, vs)) && HasEnd(sent)
    ensures sent == Frames(Conversation(resp, vs))
  {
    hide Frames, Items;
    var ms := Conversation(resp, vs);
    var i :| 0 <= i < |sent| && sent[i].Data? && sent[i].endStream;
    FramesEnd(ms, i);
    assert ms[i].EndStream?;
    if 2 <= i < |ms| - 1 {
      ItemsAre(vs, i - 2);
    }
    assert i == |ms| - 1;
  }

  /** The server's end writing the messages one after another. */
  function Speaking(ms: seq<Message<Value>>): seq<Step> {
    if ms == [] then [] else [Step(true, DoWrite(Wrap(ms[0]), ms[0].EndStream?))] + Speaking(ms[1..])
  }

  lemma Speak(p: Pair, m: Message<Value>)
    requires CanSend(p.x) && Fits(m)
    ensures var q := Next(p, Step(true, DoWrite(Wrap(m), m.EndStream?)));
      q.x.sent == p.x.sent + Frames([m]) && (!m.EndStream? ==> CanSend(q.x))
  {
    hide WriteCall, Frames, Wrap;
    OneFrame(p.x.ep, m);
  }

  /** Only the last message may end the stream. */
  predicate Closing(ms: seq<Message<Value>>) {
    forall i :: 0 <= i < |ms| ==> Fits(ms[i]) && (ms[i].EndStream? ==> i == |ms| - 1)
  }

  lemma SpeakingStep(p: Pair, ms: seq<Message<Value>>)
    requires ms != [] && Closing(ms)
    ensures Run(p, Speaking(ms)) == Run(Next(p, Step(true, DoWrite(Wrap(ms[0]), ms[0].EndStream?))), Speaking(ms[1..]))
    ensures Frames(ms) == Frames([ms[0]]) + Frames(ms[1..])
    ensures Closing(ms[1..]) && Fits(ms[0]) && (ms[0].EndStream? ==> ms[1..] == [])
  {
    hide Next, Wrap, Fits;
    var s := Step(true, DoWrite(Wrap(ms[0]), ms[0].EndStream?));
    assert Speaking(ms)[0] == s && Speaking(ms)[1..] == Speaking(ms[1..]);
    FramesAppend([ms[0]], ms[1..]);
    assert [ms[0]] + ms[1..] == ms;
  }

  lemma SpeakingNone(p: Pair)
    ensures Run(p, Speaking([])) == p && Frames([]) == []
  {
  }

  lemma {:induction false} SpeakingRuns(p: Pair, ms: seq<Message<Value>>)
    requires CanSend(p.x) && Closing(ms)
    ensures Run(p, Speaking(ms)).x.sent == p.x.sent + Frames(ms)
    decreases |ms|
  {
    hide *;
    if ms == [] {
      SpeakingNone(p);
    } else {
      var m, rest := ms[0], ms[1..];
      var q := Next(p, Step(true, DoWrite(Wrap(m), m.EndStream?)));
      SpeakingStep(p, ms);
      Speak(p, m);
      if rest == [] {
        SpeakingNone(q);
      } else {
        SpeakingRuns(q, rest);
      }
    }
  }

  /** Such a run exists: it is gentle, and ends with the whole conversation sent. */
  lemma ConversationRuns(server: Ctx, resp: Message<Value>, vs: seq<Value>)
    requires resp.Response? && resp.streaming && vs != []
    requires AllSupported(resp.params) && Fits(resp)
    requires AllSupported(vs) && forall v :: v in vs ==> Fits(StreamItem(v))
    requires server.err.None? && server.sendError.None?
    ensures var steps := Speaking(Conversation(resp, vs));
      && (forall s :: s in steps ==> Gentle(s))
      && Run(Start, steps).x.sent == Serve(server, NewEndpoint, resp, vs).out
  {
    hide Frames, Items, Run, AllSupported, Serve, Speaking, Fits;
    NewCanSend();
    ServerSends(server, NewEndpoint, resp, vs);
    var ms := Conversation(resp, vs);
    ConversationFits(resp, vs);
    SpeakingRuns(Start, ms);
    SpeakingGentle(ms);
    assert Start.x.sent + Frames(ms) == Frames(ms);
  }

  lemma {:induction false} ItemsFit(vs: seq<Value>, i: nat)
    requires i < |Items(vs)| && forall v :: v in vs ==> Fits(StreamItem(v))
    ensures Fits(Items(vs)[i]) && Items(vs)[i].StreamItem?
  {
    hide Fits;
    if i > 0 {
      ItemsFit(vs[1..], i - 1);
    }
  }

  lemma ConversationFits(resp: Message<Value>, vs: seq<Value>)
    requires resp.Response? && Fits(resp) && forall v :: v in vs ==> Fits(StreamItem(v))
    ensures Closing(Conversation(resp, vs))
  {
    ShortMessages();
    var ms := Conversation(resp, vs);
    hide Wrap, Items;
    forall i | 0 <= i < |ms|
      ensures Fits(ms[i]) && (ms[i].EndStream? ==> i == |ms| - 1)
    {
      if 2 <= i < |ms| - 1 {
        assert ms[i] == Items(vs)[i - 2];
        ItemsFit(vs, i - 2);
      }
    }
  }

  lemma {:induction false} SpeakingGentle(ms: seq<Message<Value>>)
    requires forall i :: 0 <= i < |ms| ==> Fits(ms[i])
    ensures forall s :: s in Speaking(ms) ==> Gentle(s)
  {
    hide Wrap;
    if ms != [] {
      SpeakingGentle(ms[1..]);
    }
  }

  lemma NewCanSend()
    ensures NewEndpoint.state.Send().None?
  {
  }

  // A stream without items.

  /** `k` calls refused for good. */
  function RefusedTimes(k: nat): seq<Result> {
    if k == 0 then [] else [Failed(Unexpected)] + RefusedTimes(k - 1)
  }

  lemma {:induction false} RefusedForGood(c: Ctx, inp: Input, pos: nat, k: nat)
    requires c.hasRecv && c.err == Some(Unexpected) && pos <= |inp.data|
    ensures Recvs(c, inp, pos, k) == RefusedTimes(k)
    decreases k
  {
    if k > 0 {
      RefusedForGood(c, inp, pos, k - 1);
    }
  }

  /** Without a Send the server never writes the start of the stream. */
  lemma EmptyServe(c: Ctx, e: Endpoint, resp: Message<Value>)
    requires resp.Response? && resp.streaming && e.state.Send().None? && c.err.None? && c.sendError.None?
    requires AllSupported(resp.params) && Fits(resp)
    ensures Serve(c, e, resp, []).err == None && Serve(c, e, resp, []).out == Frames([resp] + [EndStream])
  {
    ShortMessages();
    hide Wrap, WriteCall, AllSupported, Frames;
    OneFrame(e, resp);
    OneFrame(e, EndStream);
    FramesAppend([resp], [EndStream]);
    assert [] + Frames([EndStream]) == Frames([EndStream]);
  }

  lemma RecvRefused(c: Ctx, inp: Input, pos: nat, p: nat, k: nat)
    requires Listening(c) && !c.recvStarted && pos <= |inp.data| && ReadMessage(inp, pos) == Ok(EndStream, p) && k > 0
    ensures Recvs(c, inp, pos, k) == [Failed(Unexpected)] + Recvs(c.(err := Some(Unexpected)), inp, p, k - 1)
  {
    hide ReadMessage;
  }

  /**
   * What a server sends that answers with a stream and ends it without a Send is read as the response,
   * after which every Recv fails: the first because the end is not a start, the others for good.
   */
  lemma EmptyStreamFails(server: Ctx, client: Ctx, resp: Message<Value>, tail: Error, known: set<bytes>, k: nat)
    requires resp.Response? && resp.streaming && server.err.None? && server.sendError.None?
    requires AllSupported(resp.params) && Fits(resp) && Good(resp, known) && CountsFit(resp)
    requires Listening(client) && !client.recvStarted
    ensures var inp := FromBlocks(BlocksOf(Serve(server, NewEndpoint, resp, []).out), tail, known);
      && |Wrap(resp)| <= |inp.data|
      && ReadExpected(2, inp, 0) == Ok(NormMessage(resp), |Wrap(resp)|)
      && Recvs(client, inp, |Wrap(resp)|, k) == RefusedTimes(k)
  {
    hide *;
    var ms: seq<Message<Value>> := [resp] + [EndStream];
    var inp := FromBlocks(BlocksOf(Serve(server, NewEndpoint, resp, []).out), tail, known);
    NewCanSend();
    EmptyServe(server, NewEndpoint, resp);
    FramesBlocks(ms);
    MessagesLaid(ms, tail, known);
    InputKnown(Wraps(ms), tail, known);
    ConversationIs(resp, []);
    HeadMessage(resp, [EndStream], inp, 0);
    GoodEnd(known);
    StartFits();
    EndIsEnd();
    var last: seq<Message<Value>> := [EndStream];
    assert last == [EndStream] + [];
    HeadMessage(EndStream, [], inp, |Wrap(resp)|);
    if k == 0 {
      NoRecvs(client, inp, |Wrap(resp)|);
    } else {
      var p := |Wrap(resp)| + |Wrap(EndStream)|;
      RecvRefused(client, inp, |Wrap(resp)|, p, k);
      ListeningHas(client);
      RefusedForGood(client.(err := Some(Unexpected)), inp, p, k - 1);
      RefusedStep(k);
    }
  }

  lemma ListeningHas(c: Ctx)
    requires Listening(c)
    ensures c.hasRecv
  {
  }

  lemma RefusedStep(k: nat)
    requires k > 0
    ensures RefusedTimes(k) == [Failed(Unexpected)] + RefusedTimes(k - 1)
  {
  }

  lemma NoRecvs(c: Ctx, inp: Input, pos: nat)
    requires pos <= |inp.data|
    ensures Recvs(c, inp, pos, 0) == RefusedTimes(0)
  {
  }

  lemma InputKnown(blocks: seq<bytes>, tail: Error, known: set<bytes>)
    ensures FromBlocks(blocks, tail, known).known == known
  {
  }

  lemma EndIsEnd()
    ensures NormMessage(EndStream) == EndStream
  {
  }
}
