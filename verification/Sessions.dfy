/**
 * A streaming call with everything in one run: the server's context writing on its end of the stream,
 * the two ends exchanging packets, and the client's context reading from the other end, each call, each
 * delivery and each attempt to read a message in any order.
 */
module Sessions {
  import opened Base
  import opened Readers
  import opened Values
  import opened Codec
  import opened Blocks
  import opened Streams
  import opened Pair
  import opened PairLaws
  import opened Messages
  import opened MessageLoops
  import opened Contexts
  import opened Streaming

  /** What the server is going to send, and the structs the client knows. */
  datatype Plan = Plan(resp: Message<Value>, vs: seq<Value>, known: set<bytes>)

  /** A streaming response and at least one item, each message in a frame of its own. */
  ghost predicate Proper(plan: Plan) {
    && plan.resp.Response? && plan.resp.streaming && plan.vs != []
    && AllSupported(plan.resp.params) && Fits(plan.resp) && Good(plan.resp, plan.known) && CountsFit(plan.resp)
    && AllSupported(plan.vs) && forall v :: v in plan.vs ==> Fits(StreamItem(v)) && Good(StreamItem(v), plan.known)
  }

  /**
   * `x` is the server's end and `y` the client's. `calls` counts the server's calls; `response` and
   * `results` are what the client's ReadResponse and Recvs have returned. `jam`: a delivery has met the
   * client's channel full and waits inside Enqueue, with the lock that a Read needs for its next block.
   */
  datatype Session = Session(pair: Pair, server: Ctx, calls: nat, client: Ctx,
                             response: Option<Message<Decoded>>, results: seq<Result>, jam: bool)

  datatype Move = Wire(step: Step) | ServerCall | ClientCall(sizes: seq<nat>)

  /** The server's next call: SendResponse, a Send for each value, EndSend. */
  ghost function ServerSays(plan: Plan, s: Session): Sent
    requires plan.resp.Response? && s.calls <= |plan.vs| + 1
  {
    if s.calls == 0 then SendResponse(s.server, s.pair.x.ep, plan.resp)
    else if s.calls <= |plan.vs| then Send(s.server, s.pair.x.ep, plan.vs[s.calls - 1])
    else EndSend(s.server, s.pair.x.ep)
  }

  /** The server's end after a call. */
  ghost function Spoken(p: Pair, s: Sent): Pair {
    var x, data := p.x, Payloads(s.out);
    p.(x := x.(ep := s.ep, flying := x.flying + s.out, sent := x.sent + s.out,
               written := x.written + data, due := x.due + data))
  }

  /** What the client can read at this moment. */
  function Arrived(plan: Plan, s: Session): Input {
    Incoming(s.pair.y.ep, s.pair.y.taken, |s.pair.y.read|, plan.known)
  }

  /** The client's call: ReadResponse first, then Recv. `Waiting` means that it is still under way. */
  function ClientGets(plan: Plan, s: Session): Received
    requires |s.pair.y.read| <= |Arrived(plan, s).data|
  {
    var at := |s.pair.y.read|;
    if s.response.None? then TakeResponse(s.client, Arrived(plan, s), at) else Recv(s.client, Arrived(plan, s), at)
  }

  /** Reads of these sizes at the client's end. */
  function Reading(sizes: seq<nat>): (r: seq<Step>)
    ensures |r| == |sizes|
  {
    seq(|sizes|, i requires 0 <= i < |sizes| => Step(false, DoRead(sizes[i])))
  }

  /** The step is a delivery to the client that meets a full channel. */
  predicate Stalls(p: Pair, step: Step) {
    step == Step(false, Deliver) && p.x.flying != [] && Full(p.y.ep, p.x.flying[0])
  }

  /** Each of these reads finds bytes in the buffer, and so needs no lock. */
  predicate Unlocked(p: Pair, sizes: seq<nat>)
    decreases |sizes|
  {
    sizes == [] || (p.y.ep.reader.buf != [] && Unlocked(Next(p, Step(false, DoRead(sizes[0]))), sizes[1..]))
  }

  /**
   * The server's end is written to, and the client's end read from, only by the calls; everything else
   * that does not reset may happen, though nothing is delivered to the client behind a delivery that
   * waits. The client's call makes reads of any positive sizes - those its decoder asks for among them -
   * that together consume exactly what it has decoded; while a delivery waits they must do without the
   * lock.
   */
  ghost predicate Enabled(plan: Plan, s: Session, m: Move) {
    match m
    case Wire(step) =>
      && Gentle(step) && (if step.left then step.op.Deliver? || step.op.DoRead? else !step.op.DoRead?)
      && (s.jam ==> step != Step(false, Deliver))
    case ServerCall => plan.resp.Response? && s.calls <= |plan.vs| + 1
    case ClientCall(sizes) =>
      && |s.pair.y.read| <= |Arrived(plan, s).data| && Positive(sizes)
      && |Run(s.pair, Reading(sizes)).y.read| == ClientGets(plan, s).pos
      && (s.jam ==> Unlocked(s.pair, sizes))
  }

  predicate Positive(sizes: seq<nat>) { forall i :: 0 <= i < |sizes| ==> sizes[i] > 0 }

  ghost function After(plan: Plan, s: Session, m: Move): Session
    requires Enabled(plan, s, m)
  {
    match m
    case Wire(step) => s.(pair := Next(s.pair, step), jam := s.jam || Stalls(s.pair, step))
    case ServerCall =>
      var sent := ServerSays(plan, s);
      s.(pair := Spoken(s.pair, sent), server := sent.ctx, calls := s.calls + 1)
    case ClientCall(sizes) =>
      var r := ClientGets(plan, s);
      s.(pair := Run(s.pair, Reading(sizes)), client := r.ctx,
         response := if r.result.Answered? then Some(r.result.response) else s.response,
         results := if s.response.Some? && !r.result.Waiting? then s.results + [r.result] else s.results)
  }

  ghost function Play(plan: Plan, s: Session, moves: seq<Move>): Session
    decreases |moves|
  {
    if moves == [] then s
    else Play(plan, if Enabled(plan, s, moves[0]) then After(plan, s, moves[0]) else s, moves[1..])
  }

  ghost predicate Fresh(server: Ctx, client: Ctx) {
    && server.err.None? && server.sendError.None?
    && client.err.None? && client.recvError.None? && !client.recvStarted
  }

  function Begin(server: Ctx, client: Ctx): Session { Session(Start, server, 0, client, None, [], false) }

  // The invariant.

  function Script(plan: Plan): seq<Message<Value>> { Conversation(plan.resp, plan.vs) }

  /** How many messages so many calls have written: the first Send writes two. */
  function Written(calls: nat): nat { if calls <= 1 then calls else calls + 1 }

  /** How many messages the client has read. */
  function Heard(plan: Plan, s: Session): nat {
    if s.response.None? then 0
    else if !s.client.recvStarted then 1
    else if s.client.recvError.Some? then |plan.vs| + 3
    else 2 + |s.results|
  }

  /** Where message `i` begins. */
  function Offset(ms: seq<Message<Value>>, i: nat): nat
    requires i <= |ms|
  {
    |Flat(Wraps(ms[..i]))|
  }

  ghost predicate LinkInv(s: Session) {
    Calm(s.pair) && Track(s.pair.x, s.pair.y) && Track(s.pair.y, s.pair.x)
  }

  ghost predicate ServerInv(plan: Plan, s: Session) {
    && |Script(plan)| == |plan.vs| + 3 && s.calls <= |plan.vs| + 2
    && s.pair.x.sent == Frames(Script(plan)[..Written(s.calls)])
    && (s.calls <= |plan.vs| + 1 ==> CanSend(s.pair.x))
    && s.server.err.None? && s.server.sendError.None?
    && (s.calls >= 1 ==> s.server.hasSend && (s.server.sendStarted <==> s.calls >= 2))
  }

  ghost predicate ClientInv(plan: Plan, s: Session) {
    && s.client.err.None?
    && (s.response.None? ==> s.results == [] && !s.client.recvStarted && s.client.recvError.None?)
    && (s.response.Some? ==> s.response.value == NormMessage(plan.resp) && s.client.hasRecv)
    && (!s.client.recvStarted ==> s.results == [] && s.client.recvError.None?)
    && (s.client.recvError.None? ==> |s.results| <= |plan.vs| && s.results == Arrivals(plan.vs[..|s.results|]))
    && (s.client.recvError.Some? ==>
          && s.client.recvError.value == StreamEnded && |s.results| > |plan.vs|
          && s.results == Arrivals(plan.vs) + EndedTimes(|s.results| - |plan.vs|))
  }

  /** The client stands between two messages. */
  ghost predicate PlaceInv(plan: Plan, s: Session) {
    && Heard(plan, s) <= |s.pair.y.taken| && Heard(plan, s) <= |Script(plan)|
    && |s.pair.y.read| == Offset(Script(plan), Heard(plan, s))
  }

  /** Between calls nothing is buffered; and a delivery that waits does so before a full channel. */
  ghost predicate JamInv(s: Session) {
    && s.pair.y.ep.reader.buf == []
    && (s.jam ==> s.pair.x.flying != [] && Full(s.pair.y.ep, s.pair.x.flying[0]))
  }

  ghost predicate Inv(plan: Plan, s: Session) {
    Proper(plan) && LinkInv(s) && ServerInv(plan, s) && ClientInv(plan, s) && PlaceInv(plan, s) && JamInv(s)
  }

  lemma {:induction false} ItemsLength(vs: seq<Value>)
    ensures |Items(vs)| == |vs|
  {
    if vs != [] {
      ItemsLength(vs[1..]);
    }
  }

  lemma ScriptIs(plan: Plan)
    ensures var ms := Script(plan);
      && |ms| == |plan.vs| + 3 && ms[0] == plan.resp && ms[1] == StartStream && ms[|ms| - 1] == EndStream
      && forall i :: 0 <= i < |plan.vs| ==> ms[i + 2] == StreamItem(plan.vs[i])
  {
    hide Items;
    ItemsLength(plan.vs);
    forall i | 0 <= i < |plan.vs|
      ensures Script(plan)[i + 2] == StreamItem(plan.vs[i])
    {
      ItemAt(plan.vs, i);
    }
  }

  lemma {:induction false} ItemAt(vs: seq<Value>, i: nat)
    requires i < |vs|
    ensures |Items(vs)| == |vs| && Items(vs)[i] == StreamItem(vs[i])
  {
    ItemsLength(vs);
    if i > 0 {
      ItemAt(vs[1..], i - 1);
    }
  }

  /** Every message of the script can be read back. */
  lemma ScriptGood(plan: Plan, i: nat)
    requires Proper(plan) && i < |Script(plan)|
    ensures var m := Script(plan)[i]; Good(m, plan.known) && CountsFit(m) && Fits(m)
  {
    ScriptIs(plan);
    GoodEnd(plan.known);
    StartFits();
    ShortMessages();
    hide Good, CountsFit, Wrap, Script;
    var ms := Script(plan);
    if 2 <= i < |ms| - 1 {
      assert ms[i] == StreamItem(plan.vs[i - 2]);
      assert plan.vs[i - 2] in plan.vs;
      ItemCounts(plan.vs[i - 2]);
    }
  }

  lemma ItemCounts(v: Value)
    ensures CountsFit(StreamItem(v))
  {
  }

  // What has arrived.

  lemma {:induction false} WrapsTake(ms: seq<Message<Value>>, j: nat)
    requires j <= |ms|
    ensures |Wraps(ms)| == |ms| && Wraps(ms)[..j] == Wraps(ms[..j])
  {
    hide Wrap;
    if ms != [] {
      if j > 0 {
        WrapsTake(ms[1..], j - 1);
        assert ms[..j][1..] == ms[1..][..j - 1];
      } else {
        WrapsTake(ms[1..], 0);
      }
    }
  }

  lemma TakenIs(plan: Plan, s: Session)
    requires LinkInv(s) && ServerInv(plan, s)
    ensures var j, ms := |s.pair.y.taken|, Script(plan);
      && j <= Written(s.calls) <= |ms| && s.pair.y.taken == Wraps(ms[..j])
      && (s.pair.x.flying == [] && s.calls == |plan.vs| + 2 ==> j == |ms|)
  {
    var ms, w, taken := Script(plan), Written(s.calls), s.pair.y.taken;
    NoBlocks();
    hide Calm, Frames, Wraps, BlocksOf, Script, Stands, Flat, NonEmpty, Marks;
    var all, rest := Wraps(ms[..w]), BlocksOf(s.pair.x.flying);
    FramesBlocks(ms[..w]);
    assert taken + rest == all;
    WrapsTake(ms[..w], 0);
    WrapsTake(ms[..w], |taken|);
    assert all[..|taken|] == taken;
    assert ms[..w][..|taken|] == ms[..|taken|];
  }

  /** Once the end of the stream has been delivered, everything has. */
  lemma EndedIsAll(plan: Plan, s: Session)
    requires Proper(plan) && LinkInv(s) && ServerInv(plan, s) && s.pair.y.ended
    ensures |s.pair.y.taken| == |Script(plan)|
  {
    CalmFacts(s.pair);
    ScriptIs(plan);
    var ms, w, sent := Script(plan), Written(s.calls), s.pair.x.sent;
    assert HasEnd(sent);
    hide Calm, Frames, HasEnd, Track;
    FramesAppend(ms[..w], ms[w..]);
    assert ms == ms[..w] + ms[w..];
    assert sent <= Frames(ms);
    EndIsLast(plan.resp, plan.vs, sent);
    FramesLength(ms);
    FramesLength(ms[..w]);
    TakenIs(plan, s);
  }

  lemma {:induction false} FramesLength(ms: seq<Message<Value>>)
    ensures |Frames(ms)| == |ms|
  {
    hide Wrap;
    if ms != [] {
      FramesLength(ms[1..]);
    }
  }

  /** What the client can read is the messages that have arrived, and then it waits - unless the stream ended. */
  lemma ArrivedIs(plan: Plan, s: Session)
    requires Proper(plan) && LinkInv(s) && ServerInv(plan, s)
    ensures var j := |s.pair.y.taken|;
      && j <= |Script(plan)|
      && Arrived(plan, s) == FromBlocks(Wraps(Script(plan)[..j]), if s.pair.y.ended then ClosedStream else WouldBlock, plan.known)
      && (s.pair.y.ended ==> j == |Script(plan)|)
  {
    TakenIs(plan, s);
    CalmFacts(s.pair);
    if s.pair.y.ended {
      EndedIsAll(plan, s);
    }
    hide Calm, Track, Wraps, Script;
  }

  lemma {:induction false} AllPiecesConcat(a: seq<Message<Value>>, b: seq<Message<Value>>)
    ensures AllPieces(a + b) == AllPieces(a) + AllPieces(b)
  {
    hide MessagePieces;
    if a == [] {
      assert a + b == b;
    } else {
      assert (a + b)[1..] == a[1..] + b;
      AllPiecesConcat(a[1..], b);
    }
  }

  lemma {:induction false} WrapsFlat(ms: seq<Message<Value>>)
    ensures Flat(Wraps(ms)) == Join(AllPieces(ms))
  {
    hide MessagePieces, Join;
    if ms == [] {
      JoinNil();
    } else {
      WrapsFlat(ms[1..]);
      JoinConcat(MessagePieces(ms[0]), AllPieces(ms[1..]));
    }
  }

  lemma OffsetNext(ms: seq<Message<Value>>, i: nat)
    requires i < |ms|
    ensures Offset(ms, i + 1) == Offset(ms, i) + |Wrap(ms[i])|
  {
    hide Wrap, AllPieces, Join, Flat, Wraps;
    assert ms[..i + 1] == ms[..i] + [ms[i]];
    WrapsFlat(ms[..i]);
    WrapsFlat(ms[..i + 1]);
    AllPiecesConcat(ms[..i], [ms[i]]);
    JoinConcat(AllPieces(ms[..i]), AllPieces([ms[i]]));
    OnePiece(ms[i]);
  }

  lemma OnePiece(m: Message<Value>)
    ensures Join(AllPieces([m])) == Wrap(m)
  {
    hide Join, MessagePieces;
    assert AllPieces([m]) == MessagePieces(m) + AllPieces([]) == MessagePieces(m);
  }

  /** Message `i` of those that have arrived is read, from its place, in normal form; behind the last there is nothing. */
  lemma MessageAt(plan: Plan, j: nat, i: nat, tail: Error)
    requires Proper(plan) && i <= j <= |Script(plan)|
    ensures var ms := Script(plan);
      var inp := FromBlocks(Wraps(ms[..j]), tail, plan.known);
      && Offset(ms, i) <= |inp.data|
      && (i < j ==>
            && ReadMessage(inp, Offset(ms, i)) == Ok(NormMessage(ms[i]), Offset(ms, i + 1))
            && ReadExpected(Kind(ms[i]), inp, Offset(ms, i)) == Ok(NormMessage(ms[i]), Offset(ms, i + 1)))
      && (i == j ==>
            && ReadMessage(inp, Offset(ms, i)) == Err(tail, Offset(ms, i))
            && ReadExpected(2, inp, Offset(ms, i)) == Err(tail, Offset(ms, i)))
  {
    hide *;
    var ms := Script(plan);
    var inp := FromBlocks(Wraps(ms[..j]), tail, plan.known);
    InputIs(Wraps(ms[..j]), tail, plan.known);
    OffsetIs(ms, i);
    MessagesLaid(ms[..j], tail, plan.known);
    assert ms[..j] == ms[..i] + ms[i..j];
    AllPiecesConcat(ms[..i], ms[i..j]);
    LaidConcat(inp, 0, NoLimit(inp), AllPieces(ms[..i]), AllPieces(ms[i..j]));
    WrapsFlat(ms[..i]);
    LaidInside(inp, Offset(ms, i), NoLimit(inp), AllPieces(ms[i..j]));
    if i < j {
      assert ms[i..j] == [ms[i]] + ms[i + 1..j];
      ScriptGood(plan, i);
      HeadMessage(ms[i], ms[i + 1..j], inp, Offset(ms, i));
      OffsetNext(ms, i);
    } else {
      assert ms[..j] == ms[..i];
      NothingExpected(inp);
    }
  }

  lemma InputIs(blocks: seq<bytes>, tail: Error, known: set<bytes>)
    ensures var inp := FromBlocks(blocks, tail, known);
      inp.known == known && inp.tail == tail && inp.data == Flat(blocks)
  {
  }

  lemma OffsetIs(ms: seq<Message<Value>>, i: nat)
    requires i <= |ms|
    ensures Offset(ms, i) == |Flat(Wraps(ms[..i]))|
  {
  }

  lemma NothingExpected(inp: Input)
    ensures ReadMessage(inp, |inp.data|) == Err(inp.tail, |inp.data|)
    ensures ReadExpected(2, inp, |inp.data|) == Err(inp.tail, |inp.data|)
  {
  }

  // The client's calls.

  lemma {:induction false} ArrivalsSnoc(vs: seq<Value>, k: nat)
    requires k < |vs|
    ensures Arrivals(vs[..k]) + [Item(Norm(vs[k]))] == Arrivals(vs[..k + 1])
  {
    hide Norm;
    if k == 0 {
      assert vs[..1] == [vs[0]] && [vs[0]][1..] == [];
    } else {
      ArrivalsSnoc(vs[1..], k - 1);
      assert vs[..k][1..] == vs[1..][..k - 1] && vs[..k + 1][1..] == vs[1..][..k];
    }
  }

  lemma {:induction false} EndedSnoc(k: nat)
    ensures EndedTimes(k) + [Failed(StreamEnded)] == EndedTimes(k + 1) && |EndedTimes(k)| == k
  {
    if k > 0 {
      EndedSnoc(k - 1);
    }
  }

  lemma {:induction false} ArrivalsLength(vs: seq<Value>)
    ensures |Arrivals(vs)| == |vs|
  {
    hide Norm;
    if vs != [] {
      ArrivalsLength(vs[1..]);
    }
  }

  lemma ItemNorm(v: Value)
    ensures NormMessage(StreamItem(v)) == StreamItem(Norm(v))
  {
  }

  /** The message loop of Recv at message `i`. */
  lemma RecvItemAt(plan: Plan, c: Ctx, j: nat, i: nat, tail: Error)
    requires Proper(plan) && 2 <= i <= j <= |Script(plan)| && i < |Script(plan)| && (i == j ==> tail == WouldBlock)
    ensures var ms := Script(plan);
      var inp := FromBlocks(Wraps(ms[..j]), tail, plan.known);
      && |ms| == |plan.vs| + 3 && Offset(ms, i) <= |inp.data|
      && RecvItem(c, inp, Offset(ms, i)) ==
         (if i == j then Received(Waiting, c, Offset(ms, i))
          else if i == |ms| - 1 then Received(Failed(StreamEnded), c.(recvError := Some(StreamEnded)), Offset(ms, i + 1))
          else Received(Item(Norm(plan.vs[i - 2])), c, Offset(ms, i + 1)))
  {
    hide Proper, Wraps, Offset, ReadMessage, ReadExpected, Norm, Script, NormMessage;
    ScriptIs(plan);
    MessageAt(plan, j, i, tail);
    EndIsEnd();
    if i < |plan.vs| + 2 {
      assert Script(plan)[i] == StreamItem(plan.vs[i - 2]);
      ItemNorm(plan.vs[i - 2]);
    }
  }

  /** Recv before the stream has started: the start first, if it is there. */
  lemma RecvStartAt(plan: Plan, c: Ctx, j: nat, tail: Error)
    requires Proper(plan) && 1 <= j <= |Script(plan)| && (j == 1 ==> tail == WouldBlock)
    requires Listening(c) && !c.recvStarted
    ensures var ms := Script(plan);
      var inp := FromBlocks(Wraps(ms[..j]), tail, plan.known);
      && |ms| == |plan.vs| + 3 && Offset(ms, 1) <= |inp.data| && (j >= 2 ==> Offset(ms, 2) <= |inp.data|)
      && Recv(c, inp, Offset(ms, 1)) ==
         if j == 1 then Received(Waiting, c, Offset(ms, 1)) else RecvItem(c.(recvStarted := true), inp, Offset(ms, 2))
  {
    hide Proper, Wraps, Offset, ReadMessage, ReadExpected, Script, NormMessage, RecvItem;
    ScriptIs(plan);
    MessageAt(plan, j, 1, tail);
    if j >= 2 {
      MessageAt(plan, j, 2, tail);
    }
    StartFits();
  }

  lemma ResponseAt(plan: Plan, c: Ctx, j: nat, tail: Error)
    requires Proper(plan) && j <= |Script(plan)| && (j == 0 ==> tail == WouldBlock) && c.err.None?
    ensures var ms := Script(plan);
      var inp := FromBlocks(Wraps(ms[..j]), tail, plan.known);
      && |ms| == |plan.vs| + 3 && Offset(ms, 0) <= |inp.data|
      && TakeResponse(c, inp, Offset(ms, 0)) ==
         if j == 0 then Received(Waiting, c, Offset(ms, 0))
         else Received(Answered(NormMessage(plan.resp)), c.(hasRecv := true, meta := plan.resp.meta), Offset(ms, 1))
  {
    assert Kind(plan.resp) == 2 && NormMessage(plan.resp).streaming && NormMessage(plan.resp).meta == plan.resp.meta;
    hide Proper, Wraps, Offset, ReadMessage, ReadExpected, Script, NormMessage, Kind;
    ScriptIs(plan);
    MessageAt(plan, j, 0, tail);
  }

  /** The session after a client's call, but for the link. */
  function Heeds(s: Session, r: Received): Session {
    s.(client := r.ctx,
       response := if r.result.Answered? then Some(r.result.response) else s.response,
       results := if s.response.Some? && !r.result.Waiting? then s.results + [r.result] else s.results)
  }

  /** The call read whole messages, as many as it needed and there were, and drew the right conclusions. */
  ghost predicate Concludes(plan: Plan, s: Session, r: Received) {
    var t := Heeds(s, r);
    var i, j := Heard(plan, s), |s.pair.y.taken|;
    && ClientInv(plan, t)
    && i <= Heard(plan, t) <= j && Heard(plan, t) <= |Script(plan)| && r.pos == Offset(Script(plan), Heard(plan, t))
    && (i < j ==> Heard(plan, t) > i)
    && (i == |Script(plan)| || (j == |Script(plan)| && s.response.Some?) ==> |t.results| == |s.results| + 1)
    && |s.results| <= |t.results| <= |s.results| + 1
  }

  lemma ConcludeItem(plan: Plan, s: Session, r: Received, c: Ctx, i: nat)
    requires Proper(plan) && ClientInv(plan, s) && s.response.Some? && c.recvStarted && s.client.recvError.None?
    requires c == s.client.(recvStarted := true) && i == 2 + |s.results| && |Script(plan)| == |plan.vs| + 3
    requires Heard(plan, s) <= i <= |s.pair.y.taken| <= |Script(plan)| && i < |Script(plan)|
    requires Heard(plan, s) == i || Heard(plan, s) == 1
    requires var ms := Script(plan);
      r == (if i == |s.pair.y.taken| then Received(Waiting, c, Offset(ms, i))
            else if i == |ms| - 1 then Received(Failed(StreamEnded), c.(recvError := Some(StreamEnded)), Offset(ms, i + 1))
            else Received(Item(Norm(plan.vs[i - 2])), c, Offset(ms, i + 1)))
    ensures Concludes(plan, s, r)
  {
    hide Proper, Offset, Norm, Script, NormMessage;
    if i < |plan.vs| + 2 {
      ArrivalsSnoc(plan.vs, i - 2);
    } else {
      assert plan.vs[..|plan.vs|] == plan.vs;
      EndedSnoc(0);
    }
    hide Arrivals;
  }

  lemma ClientConcludes(plan: Plan, s: Session)
    requires Inv(plan, s)
    ensures |s.pair.y.read| <= |Arrived(plan, s).data| && Concludes(plan, s, ClientGets(plan, s))
  {
    hide Proper, LinkInv, ServerInv, Offset, Script, NormMessage, Norm, Recv, RecvItem, TakeResponse, Wraps, Arrived, Arrivals,
      FromBlocks, ReadMessage, ReadExpected, EndedTimes;
    var i, j, ms := Heard(plan, s), |s.pair.y.taken|, Script(plan);
    var tail := if s.pair.y.ended then ClosedStream else WouldBlock;
    ArrivedIs(plan, s);
    ScriptIs(plan);
    MessageAt(plan, j, i, tail);
    if i == 0 {
      ResponseAt(plan, s.client, j, tail);
    } else if s.client.recvError.Some? {
      EndedFor(plan, s);
    } else if i == 1 {
      RecvStartAt(plan, s.client, j, tail);
      if j >= 2 {
        var c := s.client.(recvStarted := true);
        RecvItemAt(plan, c, j, 2, tail);
        ConcludeItem(plan, s, ClientGets(plan, s), c, 2);
      }
    } else {
      RecvItemAt(plan, s.client, j, i, tail);
      RecvGoesOn(s.client, Arrived(plan, s), |s.pair.y.read|);
      ConcludeItem(plan, s, ClientGets(plan, s), s.client, i);
    }
  }

  lemma RecvGoesOn(c: Ctx, inp: Input, pos: nat)
    requires c.hasRecv && c.err.None? && c.recvError.None? && c.recvStarted && pos <= |inp.data|
    ensures Recv(c, inp, pos) == RecvItem(c, inp, pos)
  {
  }

  lemma EndedFor(plan: Plan, s: Session)
    requires ClientInv(plan, s) && PlaceInv(plan, s) && s.client.recvError.Some? && |Script(plan)| == |plan.vs| + 3
    requires s.response.Some? && s.client.recvStarted && |s.pair.y.read| <= |Arrived(plan, s).data|
    requires |s.pair.y.taken| <= |Script(plan)|
    ensures Concludes(plan, s, ClientGets(plan, s))
  {
    hide Offset, Script, NormMessage, RecvItem, Arrived, Arrivals;
    var k := |s.results| - |plan.vs|;
    EndedSnoc(k);
    assert Arrivals(plan.vs) + EndedTimes(k) + [Failed(StreamEnded)] == Arrivals(plan.vs) + EndedTimes(k + 1);
  }

  // Moves keep the invariant.

  lemma {:induction false} ReadingRuns(p: Pair, sizes: seq<nat>)
    requires Calm(p) && Track(p.x, p.y) && Track(p.y, p.x)
    ensures var q := Run(p, Reading(sizes));
      && Calm(q) && Track(q.x, q.y) && Track(q.y, q.x)
      && q.x == p.x && q.y.taken == p.y.taken && q.y.ended == p.y.ended
    decreases |sizes|
  {
    hide Calm, Track, Next;
    if sizes == [] {
      assert Reading(sizes) == [];
    } else {
      var step, q := Step(false, DoRead(sizes[0])), Next(p, Step(false, DoRead(sizes[0])));
      assert Reading(sizes) == [step] + Reading(sizes[1..]);
      ReadStep(p, sizes[0]);
      assert [step] == [step] + [];
      assert Run(p, [step]) == q by { assert [step][1..] == []; }
      TrackRun(p, [step]);
      ReadingRuns(q, sizes[1..]);
      assert ([step] + Reading(sizes[1..]))[1..] == Reading(sizes[1..]);
    }
  }

  lemma ReadStep(p: Pair, n: nat)
    ensures var q := Next(p, Step(false, DoRead(n)));
      q.x == p.x && q.y.taken == p.y.taken && q.y.ended == p.y.ended && Gentle(Step(false, DoRead(n)))
  {
    hide AfterRead, ReadOutcome;
  }

  lemma ServerSame(plan: Plan, s: Session, t: Session)
    requires ServerInv(plan, s) && t.pair.x == s.pair.x && t.server == s.server && t.calls == s.calls
    ensures ServerInv(plan, t)
  {
    hide Frames, Script;
  }

  lemma ClientSame(plan: Plan, s: Session, t: Session)
    requires ClientInv(plan, s) && t.client == s.client && t.response == s.response && t.results == s.results
    ensures ClientInv(plan, t) && Heard(plan, t) == Heard(plan, s)
  {
    hide Arrivals, EndedTimes, NormMessage;
  }

  lemma AfterClient(plan: Plan, s: Session, sizes: seq<nat>)
    requires Enabled(plan, s, ClientCall(sizes))
    ensures |s.pair.y.read| <= |Arrived(plan, s).data| && Positive(sizes) && (s.jam ==> Unlocked(s.pair, sizes))
    ensures var q, r := Run(s.pair, Reading(sizes)), ClientGets(plan, s);
      After(plan, s, ClientCall(sizes)) == Heeds(s, r).(pair := q) && |q.y.read| == r.pos
  {
    hide Run, Reading, Arrived, ClientGets, Unlocked, Positive;
  }

  lemma PlaceIf(plan: Plan, s: Session, r: Received, q: Pair)
    requires Concludes(plan, s, r) && |q.y.read| == r.pos && q.y.taken == s.pair.y.taken
    ensures PlaceInv(plan, Heeds(s, r).(pair := q)) && ClientInv(plan, Heeds(s, r))
  {
    hide Script, Offset, ClientInv;
  }

  /** Nothing is buffered, or the reader stands inside a block. */
  ghost predicate Rests(p: Pair) {
    p.y.ep.reader.buf == [] || (|p.y.read| > 0 && |p.y.read| !in Ends(0, p.y.taken))
  }

  lemma ReadRests(p: Pair, n: nat)
    requires Calm(p) && Track(p.x, p.y) && Rests(p) && n > 0
    ensures Rests(Next(p, Step(false, DoRead(n))))
  {
    CalmFacts(p);
    ReadStep(p, n);
    var q := Next(p, Step(false, DoRead(n)));
    TakeInside(p.y.ep.reader, p.y.taken, |p.y.read|, n);
    TakeConserves(p.y.ep.reader, n);
    hide Calm, Take, TakeOutcome, Ends, Flat, Stands, BlocksOf, Held, Marks;
    assert p.y.read + [] == p.y.read;
  }

  lemma {:induction false} ReadingRests(p: Pair, sizes: seq<nat>)
    requires Calm(p) && Track(p.x, p.y) && Track(p.y, p.x) && Rests(p) && Positive(sizes)
    ensures Rests(Run(p, Reading(sizes)))
    decreases |sizes|
  {
    hide Calm, Track, Next, Rests;
    if sizes == [] {
      assert Reading(sizes) == [];
    } else {
      var step, q := Step(false, DoRead(sizes[0])), Next(p, Step(false, DoRead(sizes[0])));
      assert Reading(sizes) == [step] + Reading(sizes[1..]);
      ReadRests(p, sizes[0]);
      ReadStep(p, sizes[0]);
      OneStep(p, step);
      TrackRun(p, [step]);
      ReadingRests(q, sizes[1..]);
      assert ([step] + Reading(sizes[1..]))[1..] == Reading(sizes[1..]);
    }
  }

  lemma {:induction false} EndsHas(pos: nat, blocks: seq<bytes>, i: nat)
    requires 1 <= i <= |blocks|
    ensures pos + |Flat(blocks[..i])| in Ends(pos, blocks)
    decreases |blocks|
  {
    assert Flat(blocks[..i]) == blocks[0] + Flat(blocks[1..][..i - 1]) by { assert blocks[..i][1..] == blocks[1..][..i - 1]; }
    if i == 1 {
      assert blocks[1..][..0] == [];
    } else {
      EndsHas(pos + |blocks[0]|, blocks[1..], i - 1);
    }
  }

  /** Between two messages nothing is buffered. */
  lemma BoundaryRests(plan: Plan, p: Pair, i: nat)
    requires Rests(p) && i <= |p.y.taken| <= |Script(plan)| && p.y.taken == Wraps(Script(plan)[..|p.y.taken|])
    requires |p.y.read| == Offset(Script(plan), i)
    ensures p.y.ep.reader.buf == []
  {
    var ms, taken := Script(plan), p.y.taken;
    WrapsTake(ms[..|taken|], i);
    assert ms[..|taken|][..i] == ms[..i];
    if i == 0 {
      assert Wraps(ms[..0]) == [];
    } else {
      EndsHas(0, taken, i);
    }
    hide Script, Wraps, Ends;
  }

  /** While a delivery waits, the client, which stands before a message that has arrived, cannot call. */
  lemma JamBlocks(plan: Plan, s: Session, sizes: seq<nat>)
    requires Inv(plan, s) && s.jam
    ensures !Enabled(plan, s, ClientCall(sizes))
  {
    hide *;
    InvParts(plan, s);
    JamParts(s);
    FullIsUnread(plan, s);
    ClientConcludes(plan, s);
    var r := ClientGets(plan, s);
    ConcludesGets(plan, s, r);
    ConcludesPlace(plan, s, r);
    PlaceParts(plan, s);
    OffsetGrows(Script(plan), Heard(plan, s), Heard(plan, Heeds(s, r)));
    if Enabled(plan, s, ClientCall(sizes)) {
      AfterClient(plan, s, sizes);
      if sizes == [] {
        NoReading(s.pair);
      } else {
        FirstUnlocked(s.pair, sizes);
      }
      assert false;
    }
  }

  lemma NoReading(p: Pair)
    ensures Run(p, Reading([])) == p
  {
    assert Reading([]) == [];
  }

  lemma FirstUnlocked(p: Pair, sizes: seq<nat>)
    requires Unlocked(p, sizes) && sizes != []
    ensures p.y.ep.reader.buf != []
  {
    hide Next;
  }

  lemma JamParts(s: Session)
    requires JamInv(s)
    ensures s.pair.y.ep.reader.buf == []
    ensures s.jam ==> s.pair.x.flying != [] && Full(s.pair.y.ep, s.pair.x.flying[0]) && s.pair.y.ep.reader.blocks != []
  {
  }

  lemma {:induction false} OffsetGrows(ms: seq<Message<Value>>, i: nat, j: nat)
    requires i <= j <= |ms|
    ensures Offset(ms, i) <= Offset(ms, j) && (i < j ==> Offset(ms, i) < Offset(ms, j))
    decreases j - i
  {
    if i < j {
      OffsetNext(ms, i);
      WrapSome(ms[i]);
      hide Offset, Wrap;
      OffsetGrows(ms, i + 1, j);
    }
  }

  lemma WrapSome(m: Message<Value>)
    ensures |Wrap(m)| > 0
  {
    WrapBytes(m);
  }

  lemma ClientKeeps(plan: Plan, s: Session, sizes: seq<nat>)
    requires Inv(plan, s) && Enabled(plan, s, ClientCall(sizes))
    ensures Inv(plan, After(plan, s, ClientCall(sizes)))
  {
    hide *;
    InvParts(plan, s);
    if s.jam {
      JamBlocks(plan, s, sizes);
    } else {
      AfterClient(plan, s, sizes);
      ClientConcludes(plan, s);
      ReadingRuns(s.pair, sizes);
      var r, q := ClientGets(plan, s), Run(s.pair, Reading(sizes));
      PlaceIf(plan, s, r, q);
      var h := Heeds(s, r);
      HeedsLink(s, r);
      var t := h.(pair := q);
      ServerSame(plan, s, t);
      ClientSame(plan, h, t);
      LinkIf(s);
      ClientRests(plan, s, sizes, t);
      InvIf(plan, t);
    }
  }

  lemma ClientRests(plan: Plan, s: Session, sizes: seq<nat>, t: Session)
    requires LinkInv(s) && ServerInv(plan, s) && JamInv(s) && !s.jam && Positive(sizes)
    requires t.pair == Run(s.pair, Reading(sizes)) && t.jam == s.jam && PlaceInv(plan, t)
    ensures JamInv(t)
  {
    hide *;
    LinkParts(s);
    JamParts(s);
    RestsIf(s.pair);
    ReadingRuns(s.pair, sizes);
    ReadingRests(s.pair, sizes);
    TakenIs(plan, s);
    PlaceParts(plan, t);
    BoundaryRests(plan, t.pair, Heard(plan, t));
    JamIf(t);
  }

  lemma LinkParts(s: Session)
    requires LinkInv(s)
    ensures Calm(s.pair) && Track(s.pair.x, s.pair.y) && Track(s.pair.y, s.pair.x)
  {
    hide Calm, Track;
  }

  lemma RestsIf(p: Pair)
    requires p.y.ep.reader.buf == []
    ensures Rests(p)
  {
  }

  lemma JamIf(t: Session)
    requires !t.jam && t.pair.y.ep.reader.buf == []
    ensures JamInv(t)
  {
  }

  lemma HeedsLink(s: Session, r: Received)
    ensures var h := Heeds(s, r); h.pair == s.pair && h.server == s.server && h.calls == s.calls && h.jam == s.jam
  {
  }

  /** A step that is neither a write of the server's nor a read of the client's. */
  lemma WireEnds(p: Pair, step: Step)
    requires Calm(p) && Tidy(p.y.flying) && Gentle(step)
    requires if step.left then step.op.Deliver? || step.op.DoRead? else !step.op.DoRead?
    ensures var q := Next(p, step);
      && q.x.sent == p.x.sent && (CanSend(p.x) ==> CanSend(q.x))
      && q.y.read == p.y.read && |p.y.taken| <= |q.y.taken|
  {
    CalmFacts(p);
    CalmFacts(Swap(p));
    CalmSwap(p);
    if step.left {
      WireLeft(p, step.op);
    } else {
      WireRight(p, step.op);
    }
  }

  lemma WireLeft(p: Pair, op: Op)
    requires op.Deliver? || op.DoRead?
    requires p.x.ep.state.RecvData() == if p.x.ended then Some(ClosedStream) else None
    requires p.x.ended ==> p.y.flying == []
    requires Tidy(p.y.flying)
    ensures var q := Act(p, op);
      q.x.sent == p.x.sent && (CanSend(p.x) ==> CanSend(q.x)) && q.y.read == p.y.read && q.y.taken == p.y.taken
  {
    assert p.x.sent + [] == p.x.sent;
    hide Take, TakeOutcome, Full, Tidy;
    if op.Deliver? && p.y.flying != [] {
      TidyTail(p.y.flying);
    }
  }

  lemma WireRight(p: Pair, op: Op)
    requires !op.DoRead? && !op.DoReset?
    ensures var q := Next(p, Step(false, op));
      q.x.sent == p.x.sent && (CanSend(p.x) ==> CanSend(q.x)) && q.y.read == p.y.read && |p.y.taken| <= |q.y.taken|
  {
    hide Segments, Handle, Full, Countable;
  }

  lemma CalmTidy(p: Pair)
    requires Calm(p)
    ensures Tidy(p.x.flying) && Tidy(p.y.flying)
  {
    hide Flow, Sound, Tidy, EndsStream;
  }

  /** A step other than a delivery that stalls leaves a delivery that waits where it is. */
  lemma WireJam(p: Pair, step: Step)
    requires Gentle(step) && p.y.ep.reader.buf == []
    requires if step.left then step.op.Deliver? || step.op.DoRead? else !step.op.DoRead?
    ensures var q := Next(p, step);
      && q.y.ep.reader.buf == []
      && (p.x.flying != [] && Full(p.y.ep, p.x.flying[0]) ==> q.x.flying != [] && Full(q.y.ep, q.x.flying[0]))
  {
    if step.left {
      JamLeft(p, step.op);
    } else {
      JamRight(p, step.op);
    }
  }

  lemma JamLeft(p: Pair, op: Op)
    requires op.Deliver? || op.DoRead?
    ensures var q := Act(p, op);
      q.y.ep == p.y.ep && (p.x.flying != [] ==> q.x.flying != [] && q.x.flying[0] == p.x.flying[0])
  {
    hide Handle, Full, AfterRead, ReadOutcome;
  }

  lemma JamRight(p: Pair, op: Op)
    requires !op.DoRead? && !op.DoReset? && p.y.ep.reader.buf == []
    ensures var q := Next(p, Step(false, op));
      && q.y.ep.reader.buf == []
      && (p.x.flying != [] && Full(p.y.ep, p.x.flying[0]) ==> q.x.flying == p.x.flying && Full(q.y.ep, q.x.flying[0]))
  {
    hide Segments, Countable;
  }

  lemma AfterWire(plan: Plan, s: Session, step: Step)
    requires Enabled(plan, s, Wire(step))
    ensures After(plan, s, Wire(step)) == s.(pair := Next(s.pair, step), jam := s.jam || Stalls(s.pair, step))
    ensures Gentle(step) && (if step.left then step.op.Deliver? || step.op.DoRead? else !step.op.DoRead?)
  {
    hide Next, Stalls, Gentle;
  }

  lemma WireKeeps(plan: Plan, s: Session, step: Step)
    requires Inv(plan, s) && Enabled(plan, s, Wire(step))
    ensures Inv(plan, After(plan, s, Wire(step)))
  {
    hide *;
    InvParts(plan, s);
    JamParts(s);
    AfterWire(plan, s, step);
    CalmTidy(s.pair);
    WireEnds(s.pair, step);
    WireJam(s.pair, step);
    OneStep(s.pair, step);
    TrackRun(s.pair, [step]);
    var t := After(plan, s, Wire(step));
    StallsIf(s, step, t);
    ServerWire(plan, s, t);
    ClientSame(plan, s, t);
    PlaceSame(plan, s, t);
    InvIf(plan, t);
  }

  lemma ServerWire(plan: Plan, s: Session, t: Session)
    requires ServerInv(plan, s) && t.pair.x.sent == s.pair.x.sent && (CanSend(s.pair.x) ==> CanSend(t.pair.x))
    requires t.server == s.server && t.calls == s.calls
    ensures ServerInv(plan, t)
  {
    hide Frames, Script, CanSend;
  }

  lemma StallsIf(s: Session, step: Step, t: Session)
    requires JamInv(s) && t.pair == Next(s.pair, step) && t.jam == (s.jam || Stalls(s.pair, step))
    requires t.pair.y.ep.reader.buf == []
    requires s.pair.x.flying != [] && Full(s.pair.y.ep, s.pair.x.flying[0]) ==>
      t.pair.x.flying != [] && Full(t.pair.y.ep, t.pair.x.flying[0])
    ensures JamInv(t)
  {
    hide Next, Full;
  }

  lemma OneStep(p: Pair, step: Step)
    ensures Run(p, [step]) == Next(p, step)
  {
    assert [step][1..] == [];
  }

  // The server's calls.

  lemma FrameOne(m: Message<Value>)
    ensures Frames([m]) == [Data(Wrap(m), true, m.EndStream?)] && Payloads(Frames([m])) == Wrap(m)
  {
    hide Wrap;
    assert Frames([m]) == [Data(Wrap(m), true, m.EndStream?)] + Frames([]);
    assert Frames([m])[1..] == [];
  }

  /** One message written is one step of the link. */
  lemma SpeakIs(p: Pair, m: Message<Value>, c: Ctx)
    requires CanSend(p.x) && Fits(m)
    ensures var r := WriteCall(p.x.ep, Wrap(m), m.EndStream?);
      && r.err == None && r.out == Frames([m]) && (!m.EndStream? ==> r.ep == p.x.ep)
      && Spoken(p, Sent(c, r.ep, r.out, None)) == Next(p, Step(true, DoWrite(Wrap(m), m.EndStream?)))
  {
    OneFrame(p.x.ep, m);
    FrameOne(m);
    assert Countable(Wrap(m), m.EndStream?) == Wrap(m);
    hide WriteCall, Frames, Wrap, Payloads, Countable;
  }

  lemma SpokenCompose(p: Pair, c: Ctx, f: seq<Packet>, g: seq<Packet>)
    requires Payloads(f + g) == Payloads(f) + Payloads(g)
    ensures Spoken(Spoken(p, Sent(c, p.x.ep, f, None)), Sent(c, p.x.ep, g, None)) == Spoken(p, Sent(c, p.x.ep, f + g, None))
  {
    hide Payloads;
    var x, a, b := p.x, Payloads(f), Payloads(g);
    assert (x.flying + f) + g == x.flying + (f + g) && (x.sent + f) + g == x.sent + (f + g);
    assert (x.written + a) + b == x.written + (a + b) && (x.due + a) + b == x.due + (a + b);
  }

  lemma SpokenTwice(p: Pair, a: Message<Value>, b: Message<Value>, c: Ctx)
    requires CanSend(p.x) && Fits(a) && Fits(b) && !a.EndStream? && !b.EndStream?
    ensures Spoken(p, Sent(c, p.x.ep, Frames([a]) + Frames([b]), None))
      == Next(Next(p, Step(true, DoWrite(Wrap(a), false))), Step(true, DoWrite(Wrap(b), false)))
  {
    hide Frames, Wrap, Payloads, Next, WriteCall, Fits;
    SpeakIs(p, a, c);
    var q := Next(p, Step(true, DoWrite(Wrap(a), false)));
    assert q == Spoken(p, Sent(c, p.x.ep, Frames([a]), None));
    SpeakIs(q, b, c);
    FrameOne(a);
    FrameOne(b);
    PayloadsTwo(Wrap(a), Wrap(b));
    SpokenCompose(p, c, Frames([a]), Frames([b]));
  }

  lemma PayloadsTwo(a: bytes, b: bytes)
    ensures Payloads([Data(a, true, false)] + [Data(b, true, false)]) == a + b
  {
    var q := [Data(b, true, false)];
    var ps := [Data(a, true, false)] + q;
    assert ps[1..] == q && q[1..] == [];
    assert Payloads(q) == b + Payloads([]) == b;
    assert Payloads(ps) == a + Payloads(q);
  }

  /** The messages of the server's next call. */
  function NextMessages(plan: Plan, calls: nat): seq<Message<Value>>
    requires calls <= |plan.vs| + 1 && |Script(plan)| == |plan.vs| + 3
  {
    Script(plan)[Written(calls)..Written(calls + 1)]
  }

  lemma NextMessagesAre(plan: Plan, calls: nat)
    requires plan.vs != [] && calls <= |plan.vs| + 1
    ensures |Script(plan)| == |plan.vs| + 3
    ensures NextMessages(plan, calls) ==
      if calls == 0 then [plan.resp]
      else if calls == 1 then [StartStream, StreamItem(plan.vs[0])]
      else if calls <= |plan.vs| then [StreamItem(plan.vs[calls - 1])]
      else [EndStream]
  {
    ScriptIs(plan);
    hide Script;
    SliceIs(Script(plan), Written(calls));
    if 1 <= calls <= |plan.vs| {
      assert Script(plan)[calls + 1] == StreamItem(plan.vs[calls - 1]);
    }
  }

  lemma SliceIs(ms: seq<Message<Value>>, w: nat)
    ensures w < |ms| ==> ms[w..w + 1] == [ms[w]]
    ensures w + 1 < |ms| ==> ms[w..w + 2] == [ms[w], ms[w + 1]]
  {
  }

  /** What the call writes, and what it leaves in the context. */
  lemma ServerSpeaks(plan: Plan, s: Session)
    requires Proper(plan) && ServerInv(plan, s) && s.calls <= |plan.vs| + 1
    ensures plan.resp.Response?
    ensures var sent, next := ServerSays(plan, s), NextMessages(plan, s.calls);
      && Streaming.Ready(sent.ctx) && (sent.ctx.sendStarted <==> s.calls >= 1)
      && Spoken(s.pair, sent) == Run(s.pair, Speaking(next))
      && Closing(next) && (s.calls <= |plan.vs| ==> CanSend(Spoken(s.pair, sent).x))
  {
    NextMessagesAre(plan, s.calls);
    hide Good, Script, Frames, Speaking, Run, Closing, Spoken, ServerSays, Supported, Fits, NextMessages, CanSend;
    if s.calls == 0 {
      SpeaksResponse(plan, s);
    } else if s.calls == 1 {
      assert plan.vs[0] in plan.vs;
      SpeaksFirst(plan, s);
    } else if s.calls <= |plan.vs| {
      assert plan.vs[s.calls - 1] in plan.vs;
      SpeaksItem(plan, s);
    } else {
      SpeaksEnd(plan, s);
    }
  }

  lemma SpeakingOne(p: Pair, m: Message<Value>)
    ensures Run(p, Speaking([m])) == Next(p, Step(true, DoWrite(Wrap(m), m.EndStream?)))
  {
    hide Next, Wrap;
    assert [m][1..] == [];
    assert Speaking([m]) == [Step(true, DoWrite(Wrap(m), m.EndStream?))];
    OneStep(p, Step(true, DoWrite(Wrap(m), m.EndStream?)));
  }

  lemma SpeaksResponse(plan: Plan, s: Session)
    requires plan.resp.Response? && plan.resp.streaming && AllSupported(plan.resp.params) && Fits(plan.resp)
    requires CanSend(s.pair.x) && s.calls == 0
    ensures var sent := ServerSays(plan, s);
      && sent.ctx == s.server.(hasSend := true, sendStarted := false)
      && Spoken(s.pair, sent) == Run(s.pair, Speaking([plan.resp])) && Closing([plan.resp])
      && CanSend(Spoken(s.pair, sent).x)
  {
    hide WriteCall, Wrap, Run, Next, Speaking, Frames, Payloads, AllSupported, Fits;
    SpeakIs(s.pair, plan.resp, s.server.(hasSend := true, sendStarted := false));
    SpeakingOne(s.pair, plan.resp);
  }

  lemma SpeaksItem(plan: Plan, s: Session)
    requires plan.resp.Response? && 2 <= s.calls <= |plan.vs| && Streaming.Ready(s.server) && s.server.sendStarted
    requires CanSend(s.pair.x) && Supported(plan.vs[s.calls - 1]) && Fits(StreamItem(plan.vs[s.calls - 1]))
    ensures var sent, m := ServerSays(plan, s), StreamItem(plan.vs[s.calls - 1]);
      && sent.ctx == s.server
      && Spoken(s.pair, sent) == Run(s.pair, Speaking([m])) && Closing([m])
      && CanSend(Spoken(s.pair, sent).x)
  {
    hide WriteCall, Wrap, Run, Next, Speaking, Frames, Payloads, Supported, Fits;
    var v := plan.vs[s.calls - 1];
    SpeakIs(s.pair, StreamItem(v), s.server);
    SpeakingOne(s.pair, StreamItem(v));
  }

  lemma SpeaksEnd(plan: Plan, s: Session)
    requires plan.resp.Response? && s.calls == |plan.vs| + 1 > 0 && Streaming.Ready(s.server) && CanSend(s.pair.x)
    ensures var sent := ServerSays(plan, s);
      && sent.ctx == s.server
      && Spoken(s.pair, sent) == Run(s.pair, Speaking([EndStream])) && Closing([EndStream])
  {
    ShortMessages();
    hide WriteCall, Wrap, Run, Next, Speaking, Frames, Payloads;
    SpeakIs(s.pair, EndStream, s.server);
    SpeakingOne(s.pair, EndStream);
  }

  lemma SpeaksFirst(plan: Plan, s: Session)
    requires plan.resp.Response? && plan.vs != [] && s.calls == 1 && Streaming.Ready(s.server) && !s.server.sendStarted
    requires CanSend(s.pair.x) && Supported(plan.vs[0]) && Fits(StreamItem(plan.vs[0]))
    ensures var sent, m := ServerSays(plan, s), StreamItem(plan.vs[0]);
      && sent.ctx == s.server.(sendStarted := true)
      && Spoken(s.pair, sent) == Run(s.pair, Speaking([StartStream, m])) && Closing([StartStream, m])
      && CanSend(Spoken(s.pair, sent).x)
  {
    var m, c := StreamItem(plan.vs[0]), s.server.(sendStarted := true);
    ShortMessages();
    assert Fits(StartStream);
    hide WriteCall, Wrap, Next, Frames, Payloads, Supported, Fits, Run, Speaking;
    SpeakIs(s.pair, StartStream, c);
    SpeakIs(s.pair, m, c);
    SpokenTwice(s.pair, StartStream, m, c);
    SpeakingTwo(s.pair, StartStream, m);
  }

  lemma SpeakingTwo(p: Pair, a: Message<Value>, b: Message<Value>)
    requires !a.EndStream? && !b.EndStream?
    ensures Run(p, Speaking([a, b]))
      == Next(Next(p, Step(true, DoWrite(Wrap(a), false))), Step(true, DoWrite(Wrap(b), false)))
  {
    hide Wrap, Next;
    var both := [a, b];
    assert both[1..] == [b];
    assert Speaking(both)[0] == Step(true, DoWrite(Wrap(a), false)) && Speaking(both)[1..] == Speaking([b]);
    SpeakingOne(Next(p, Step(true, DoWrite(Wrap(a), false))), b);
  }

  lemma InvParts(plan: Plan, s: Session)
    requires Inv(plan, s)
    ensures Proper(plan) && Calm(s.pair) && Track(s.pair.x, s.pair.y) && Track(s.pair.y, s.pair.x)
    ensures ServerInv(plan, s) && ClientInv(plan, s) && PlaceInv(plan, s) && JamInv(s)
  {
    hide Proper, Calm, Track, ServerInv, ClientInv, PlaceInv, JamInv;
  }

  lemma InvIf(plan: Plan, s: Session)
    requires Proper(plan) && Calm(s.pair) && Track(s.pair.x, s.pair.y) && Track(s.pair.y, s.pair.x)
    requires ServerInv(plan, s) && ClientInv(plan, s) && PlaceInv(plan, s) && JamInv(s)
    ensures Inv(plan, s)
  {
    hide Proper, Calm, Track, ServerInv, ClientInv, PlaceInv, JamInv;
  }

  lemma ServerParts(plan: Plan, s: Session)
    requires ServerInv(plan, s)
    ensures |Script(plan)| == |plan.vs| + 3 && s.calls <= |plan.vs| + 2
    ensures Written(s.calls) <= |Script(plan)| && s.pair.x.sent == Frames(Script(plan)[..Written(s.calls)])
    ensures s.calls <= |plan.vs| + 1 ==>
      && CanSend(s.pair.x) && Written(s.calls) <= Written(s.calls + 1) <= |Script(plan)|
      && NextMessages(plan, s.calls) == Script(plan)[Written(s.calls)..Written(s.calls + 1)]
  {
    hide Script, Frames, CanSend;
  }

  lemma SpokenPeer(p: Pair, sent: Sent)
    ensures Spoken(p, sent).y == p.y
  {
  }

  /** The link after the call, and what has been sent. */
  lemma ServerLink(plan: Plan, s: Session, sent: Sent, next: seq<Message<Value>>)
    requires Calm(s.pair) && Track(s.pair.x, s.pair.y) && Track(s.pair.y, s.pair.x)
    requires ServerInv(plan, s) && s.calls <= |plan.vs| + 1 && |Script(plan)| == |plan.vs| + 3
    requires next == NextMessages(plan, s.calls) && Closing(next) && Spoken(s.pair, sent) == Run(s.pair, Speaking(next))
    ensures Written(s.calls + 1) <= |Script(plan)|
    ensures var q := Spoken(s.pair, sent);
      && Calm(q) && Track(q.x, q.y) && Track(q.y, q.x) && q.y == s.pair.y
      && q.x.sent == Frames(Script(plan)[..Written(s.calls + 1)])
  {
    hide *;
    ServerParts(plan, s);
    var ms, w, v := Script(plan), Written(s.calls), Written(s.calls + 1);
    SpokenPeer(s.pair, sent);
    FitsOf(next);
    SpeakingGentle(next);
    TrackRun(s.pair, Speaking(next));
    SpeakingRuns(s.pair, next);
    FramesAppend(ms[..w], ms[w..v]);
    assert ms[..v] == ms[..w] + ms[w..v];
  }

  lemma ServerInvIf(plan: Plan, t: Session)
    requires |Script(plan)| == |plan.vs| + 3 && 1 <= t.calls <= |plan.vs| + 2
    requires Written(t.calls) <= |Script(plan)| && t.pair.x.sent == Frames(Script(plan)[..Written(t.calls)])
    requires (t.calls <= |plan.vs| + 1 ==> CanSend(t.pair.x)) && Streaming.Ready(t.server)
    requires t.server.sendStarted <==> t.calls >= 2
    ensures ServerInv(plan, t)
  {
    hide Script, Frames, CanSend;
  }

  lemma PlaceSame(plan: Plan, s: Session, t: Session)
    requires PlaceInv(plan, s) && Heard(plan, t) == Heard(plan, s) && t.pair.y.read == s.pair.y.read
    requires |s.pair.y.taken| <= |t.pair.y.taken|
    ensures PlaceInv(plan, t)
  {
    hide Script, Offset, Heard;
  }

  lemma ServerJam(s: Session, sent: Sent, t: Session)
    requires JamInv(s) && t.pair == Spoken(s.pair, sent) && t.jam == s.jam
    ensures JamInv(t)
  {
    hide Full, Payloads;
  }

  lemma AfterServer(plan: Plan, s: Session)
    requires Enabled(plan, s, ServerCall)
    ensures plan.resp.Response? && s.calls <= |plan.vs| + 1
    ensures var sent := ServerSays(plan, s);
      After(plan, s, ServerCall) == s.(pair := Spoken(s.pair, sent), server := sent.ctx, calls := s.calls + 1)
  {
    hide ServerSays, Spoken;
  }

  lemma ServerKeeps(plan: Plan, s: Session)
    requires Inv(plan, s) && Enabled(plan, s, ServerCall)
    ensures Inv(plan, After(plan, s, ServerCall))
  {
    hide *;
    InvParts(plan, s);
    AfterServer(plan, s);
    ServerParts(plan, s);
    ServerSpeaks(plan, s);
    var sent, t := ServerSays(plan, s), After(plan, s, ServerCall);
    ServerLink(plan, s, sent, NextMessages(plan, s.calls));
    ClientSame(plan, s, t);
    PlaceSame(plan, s, t);
    ServerInvIf(plan, t);
    ServerJam(s, sent, t);
    InvIf(plan, t);
  }

  lemma FitsOf(ms: seq<Message<Value>>)
    requires Closing(ms)
    ensures forall i :: 0 <= i < |ms| ==> Fits(ms[i])
  {
  }

  // Whole sessions.

  lemma MoveKeeps(plan: Plan, s: Session, m: Move)
    requires Inv(plan, s) && Enabled(plan, s, m)
    ensures Inv(plan, After(plan, s, m))
  {
    match m
    case Wire(step) => WireKeeps(plan, s, step);
    case ServerCall => ServerKeeps(plan, s);
    case ClientCall(sizes) => ClientKeeps(plan, s, sizes);
  }

  lemma {:induction false} PlayKeeps(plan: Plan, s: Session, moves: seq<Move>)
    requires Inv(plan, s)
    ensures Inv(plan, Play(plan, s, moves))
    decreases |moves|
  {
    hide Inv, Enabled, After;
    if moves != [] {
      if Enabled(plan, s, moves[0]) {
        MoveKeeps(plan, s, moves[0]);
      }
      PlayKeeps(plan, if Enabled(plan, s, moves[0]) then After(plan, s, moves[0]) else s, moves[1..]);
    }
  }

  lemma BeginServer(plan: Plan, server: Ctx, client: Ctx)
    requires Fresh(server, client) && |Script(plan)| == |plan.vs| + 3
    ensures ServerInv(plan, Begin(server, client))
  {
    NewCanSend();
    var ms := Script(plan);
    assert ms[..0] == [];
    hide Script;
  }

  lemma BeginClient(plan: Plan, server: Ctx, client: Ctx)
    requires Fresh(server, client) && |Script(plan)| == |plan.vs| + 3
    ensures ClientInv(plan, Begin(server, client)) && PlaceInv(plan, Begin(server, client))
  {
    var ms := Script(plan);
    assert ms[..0] == [] && plan.vs[..0] == [];
    hide Script;
  }

  lemma BeginJam(server: Ctx, client: Ctx)
    ensures JamInv(Begin(server, client))
  {
  }

  lemma BeginPair(server: Ctx, client: Ctx)
    ensures Begin(server, client).pair == Start
  {
  }

  lemma BeginInv(plan: Plan, server: Ctx, client: Ctx)
    requires Proper(plan) && Fresh(server, client)
    ensures Inv(plan, Begin(server, client))
  {
    hide *;
    StartCalm();
    StartTracked();
    ScriptIs(plan);
    BeginPair(server, client);
    BeginServer(plan, server, client);
    BeginClient(plan, server, client);
    BeginJam(server, client);
    InvIf(plan, Begin(server, client));
  }

  /** What has been received is the beginning of what was meant. */
  lemma ResultsBegin(plan: Plan, s: Session)
    requires ClientInv(plan, s)
    ensures s.results <= Arrivals(plan.vs) + EndedTimes(|s.results|)
  {
    var n := |s.results|;
    if s.client.recvError.None? {
      ArrivalsPrefix(plan.vs, n);
    } else {
      EndedPrefix(n - |plan.vs|, n);
    }
    hide Arrivals, EndedTimes, NormMessage;
  }

  lemma {:induction false} ArrivalsPrefix(vs: seq<Value>, n: nat)
    requires n <= |vs|
    ensures Arrivals(vs[..n]) <= Arrivals(vs)
  {
    hide Norm;
    if n > 0 {
      assert vs[..n][1..] == vs[1..][..n - 1];
      ArrivalsPrefix(vs[1..], n - 1);
    }
  }

  lemma {:induction false} EndedPrefix(k: nat, n: nat)
    requires k <= n
    ensures EndedTimes(k) <= EndedTimes(n)
  {
    if k > 0 {
      EndedPrefix(k - 1, n - 1);
    }
  }

  /**
   * Streaming end to end. However the server's calls, the exchange of packets and the client's calls
   * interleave, what the client's ReadResponse has returned is the response, and what its Recvs have
   * returned is the beginning of: every value sent, in normal form and in order, and then, for good,
   * the end of the stream.
   */
  lemma StreamingEndToEnd(plan: Plan, server: Ctx, client: Ctx, moves: seq<Move>)
    requires Proper(plan) && Fresh(server, client)
    ensures var s := Play(plan, Begin(server, client), moves);
      && (s.response.Some? ==> s.response.value == NormMessage(plan.resp))
      && s.results <= Arrivals(plan.vs) + EndedTimes(|s.results|)
  {
    hide Proper, Play, LinkInv, ServerInv, PlaceInv, NormMessage, Arrivals, EndedTimes;
    BeginInv(plan, server, client);
    PlayKeeps(plan, Begin(server, client), moves);
    ResultsBegin(plan, Play(plan, Begin(server, client), moves));
  }

  // And to its end.

  function Ones(k: nat): (r: seq<nat>)
    ensures |r| == k
  {
    seq(k, _ => 1)
  }

  /** As long as something is held, a Read of one byte returns it. */
  lemma ReadOne(p: Pair)
    requires Calm(p) && Track(p.x, p.y) && |p.y.read| < |Flat(p.y.taken)|
    ensures |Next(p, Step(false, DoRead(1))).y.read| == |p.y.read| + 1
  {
    CalmFacts(p);
    hide Calm, Flat, Drop, BlocksOf, Marks, Read, Take, TakeOutcome;
    ReadIsRead(p.y.ep, p.y.taken, |p.y.read|, 1, {});
    ReadsOne(Incoming(p.y.ep, p.y.taken, |p.y.read|, {}), |p.y.read|);
  }

  lemma ReadsOne(inp: Input, pos: nat)
    requires pos < |inp.data|
    ensures var r := Read(inp, pos, NoLimit(inp), 1); r.Ok? && |r.value| == 1
  {
  }

  lemma {:induction false} ReadOnes(p: Pair, k: nat)
    requires Calm(p) && Track(p.x, p.y) && Track(p.y, p.x) && |p.y.read| + k <= |Flat(p.y.taken)|
    ensures |Run(p, Reading(Ones(k))).y.read| == |p.y.read| + k
    decreases k
  {
    hide Calm, Track, Next, Flat;
    if k == 0 {
      assert Reading(Ones(k)) == [];
    } else {
      var step := Step(false, DoRead(1));
      var q := Next(p, step);
      ReadOne(p);
      ReadingRuns(p, [1]);
      assert Reading([1]) == [step];
      OneStep(p, step);
      ReadOnes(q, k - 1);
      assert Reading(Ones(k)) == [step] + Reading(Ones(k - 1));
      assert ([step] + Reading(Ones(k - 1)))[1..] == Reading(Ones(k - 1));
    }
  }

  /** Unless a delivery waits, the client can always make its call, and how it ends is up to what has arrived. */
  lemma ClientCan(plan: Plan, s: Session) returns (m: Move)
    requires Inv(plan, s) && !s.jam
    ensures m.ClientCall? && Enabled(plan, s, m)
    ensures var t := After(plan, s, m);
      && !t.jam && t.calls == s.calls && t.pair.x == s.pair.x
      && Heard(plan, s) <= Heard(plan, t) <= |Script(plan)| && |s.results| <= |t.results| <= |s.results| + 1
      && (Heard(plan, s) < |s.pair.y.taken| ==> Heard(plan, t) > Heard(plan, s))
      && (Heard(plan, s) == |Script(plan)| ==> |t.results| == |s.results| + 1)
  {
    hide *;
    InvParts(plan, s);
    ClientConcludes(plan, s);
    var r := ClientGets(plan, s);
    ConcludesWhere(plan, s, r);
    ReplyAhead(plan, s);
    var k := r.pos - |s.pair.y.read|;
    ReadOnes(s.pair, k);
    m := ClientCall(Ones(k));
    OnesPositive(k);
    EnabledClient(plan, s, Ones(k));
    AfterClient(plan, s, Ones(k));
    ReadingRuns(s.pair, Ones(k));
    HeedsLink(s, r);
    HeardLink(plan, Heeds(s, r), Run(s.pair, Reading(Ones(k))));
    ConcludesGets(plan, s, r);
  }

  lemma ReplyAhead(plan: Plan, s: Session)
    requires |s.pair.y.read| <= |Arrived(plan, s).data|
    ensures ClientGets(plan, s).pos >= |s.pair.y.read|
  {
    hide TakeResponse, Recv;
  }

  lemma HeardLink(plan: Plan, h: Session, q: Pair)
    ensures Heard(plan, h.(pair := q)) == Heard(plan, h)
  {
  }

  lemma EnabledClient(plan: Plan, s: Session, sizes: seq<nat>)
    requires |s.pair.y.read| <= |Arrived(plan, s).data|
    requires |Run(s.pair, Reading(sizes)).y.read| == ClientGets(plan, s).pos && Positive(sizes) && !s.jam
    ensures Enabled(plan, s, ClientCall(sizes))
  {
    hide Run, Reading, Arrived, ClientGets, Positive;
  }

  lemma OnesPositive(k: nat)
    ensures Positive(Ones(k))
  {
  }

  lemma ConcludesGets(plan: Plan, s: Session, r: Received)
    requires Concludes(plan, s, r)
    ensures var t := Heeds(s, r);
      && Heard(plan, s) <= Heard(plan, t) <= |Script(plan)| && |s.results| <= |t.results| <= |s.results| + 1
      && (Heard(plan, s) < |s.pair.y.taken| ==> Heard(plan, t) > Heard(plan, s))
      && (Heard(plan, s) == |Script(plan)| ==> |t.results| == |s.results| + 1)
  {
    hide ClientInv, Offset, Script, Heard;
  }

  /** A call never ends behind what has arrived. */
  lemma ConcludesWhere(plan: Plan, s: Session, r: Received)
    requires Inv(plan, s) && Concludes(plan, s, r)
    ensures r.pos <= |Flat(s.pair.y.taken)|
  {
    hide *;
    InvParts(plan, s);
    LinkIf(s);
    ArrivedIs(plan, s);
    TakenIs(plan, s);
    var j, i := |s.pair.y.taken|, Heard(plan, Heeds(s, r));
    ConcludesPlace(plan, s, r);
    MessageAt(plan, j, i, EOF);
    InputIs(Wraps(Script(plan)[..j]), EOF, plan.known);
  }

  lemma ConcludesPlace(plan: Plan, s: Session, r: Received)
    requires Concludes(plan, s, r)
    ensures var i := Heard(plan, Heeds(s, r));
      i <= |s.pair.y.taken| && i <= |Script(plan)| && r.pos == Offset(Script(plan), i)
  {
    hide ClientInv, Offset, Script, Heard;
  }

  lemma LinkIf(s: Session)
    requires Calm(s.pair) && Track(s.pair.x, s.pair.y) && Track(s.pair.y, s.pair.x)
    ensures LinkInv(s)
  {
  }

  /** A full channel means that something that has arrived is still unread. */
  lemma FullIsUnread(plan: Plan, s: Session)
    requires Inv(plan, s) && s.pair.y.ep.reader.blocks != []
    ensures Heard(plan, s) < |s.pair.y.taken|
  {
    hide *;
    InvParts(plan, s);
    LinkIf(s);
    TakenIs(plan, s);
    HeldUnread(s.pair);
    PlaceParts(plan, s);
    OffsetIs(Script(plan), Heard(plan, s));
  }

  lemma PlaceParts(plan: Plan, s: Session)
    requires PlaceInv(plan, s)
    ensures Heard(plan, s) <= |s.pair.y.taken| && Heard(plan, s) <= |Script(plan)|
    ensures |s.pair.y.read| == Offset(Script(plan), Heard(plan, s))
  {
    hide Script, Offset, Heard;
  }

  lemma HeldUnread(p: Pair)
    requires Track(p.x, p.y) && p.y.ep.reader.blocks != []
    ensures |p.y.read| < |Flat(p.y.taken)|
  {
    var q, taken, n := p.y.ep.reader, p.y.taken, |p.y.read|;
    hide BlocksOf, Flat, Drop, Marks;
    FlatDrop(taken, n);
    DropNonEmpty(taken, n);
    if n == |Flat(taken)| {
      FlatEmpty(Drop(taken, n));
    }
  }

  /** A delivery that is not held up takes a packet out of flight. */
  lemma DeliverTakes(p: Pair)
    requires p.x.flying != [] && !Full(p.y.ep, p.x.flying[0])
    ensures |Next(p, Step(false, Deliver)).x.flying| < |p.x.flying|
  {
    hide Handle, Full;
  }

  lemma PlayOne(plan: Plan, s: Session, m: Move, rest: seq<Move>)
    requires Enabled(plan, s, m)
    ensures Play(plan, s, [m] + rest) == Play(plan, After(plan, s, m), rest)
  {
    hide Enabled, After;
    assert ([m] + rest)[1..] == rest;
  }

  lemma PlayNone(plan: Plan, s: Session)
    ensures Play(plan, s, []) == s
  {
  }

  /** So many results are exactly those. */
  lemma ResultsAre(plan: Plan, s: Session, k: nat)
    requires ClientInv(plan, s) && |s.results| == |plan.vs| + k
    ensures s.results == Arrivals(plan.vs) + EndedTimes(k)
  {
    ResultsBegin(plan, s);
    ArrivalsLength(plan.vs);
    EndedSnoc(k);
    EndedSnoc(|s.results|);
    EndedPrefix(k, |s.results|);
    hide Arrivals, EndedTimes, NormMessage;
    var a, e, f := Arrivals(plan.vs), EndedTimes(k), EndedTimes(|s.results|);
    assert f[..k] == e;
    assert s.results == (a + f)[..|a| + k] == a + f[..k];
  }

  /** Unless a delivery waits, something can be done until all is received: the server calls, a packet is delivered, or the client reads. */
  lemma Onward(plan: Plan, s: Session, k: nat) returns (m: Move)
    requires Inv(plan, s) && !s.jam && |s.results| < |plan.vs| + k
    ensures Enabled(plan, s, m) && Inv(plan, After(plan, s, m)) && !After(plan, s, m).jam
    ensures var t := After(plan, s, m);
      && t.calls <= |plan.vs| + 2 && Heard(plan, t) <= |Script(plan)| && |t.results| <= |plan.vs| + k
      && (t.calls > s.calls
          || (t.calls == s.calls && |t.pair.x.flying| < |s.pair.x.flying|)
          || (t.calls == s.calls && t.pair.x == s.pair.x && Heard(plan, t) > Heard(plan, s))
          || (t.calls == s.calls && t.pair.x == s.pair.x && Heard(plan, t) == Heard(plan, s) && |t.results| > |s.results|))
  {
    hide *;
    InvParts(plan, s);
    ServerParts(plan, s);
    PlaceParts(plan, s);
    var flying := s.pair.x.flying;
    if s.calls <= |plan.vs| + 1 {
      m := ServerCall;
      ServerMay(plan, s);
      AfterServer(plan, s);
    } else if flying != [] && !Full(s.pair.y.ep, flying[0]) {
      m := Wire(Step(false, Deliver));
      DeliverMay(plan, s);
      DeliverTakes(s.pair);
      NoStall(s.pair);
    } else {
      if flying == [] {
        LinkIf(s);
        TakenIs(plan, s);
      } else {
        FullBlocks(s.pair.y.ep, flying[0]);
        FullIsUnread(plan, s);
      }
      m := ClientCan(plan, s);
    }
    MoveKeeps(plan, s, m);
    var t := After(plan, s, m);
    InvParts(plan, t);
    ServerParts(plan, t);
    PlaceParts(plan, t);
  }

  lemma NoStall(p: Pair)
    requires p.x.flying != [] && !Full(p.y.ep, p.x.flying[0])
    ensures !Stalls(p, Step(false, Deliver))
  {
    hide Full;
  }

  lemma ServerMay(plan: Plan, s: Session)
    requires Proper(plan) && s.calls <= |plan.vs| + 1
    ensures Enabled(plan, s, ServerCall)
    ensures After(plan, s, ServerCall).results == s.results
  {
    hide ServerSays, Spoken;
  }

  lemma DeliverMay(plan: Plan, s: Session)
    requires !s.jam
    ensures Enabled(plan, s, Wire(Step(false, Deliver)))
    ensures After(plan, s, Wire(Step(false, Deliver)))
      == s.(pair := Next(s.pair, Step(false, Deliver)), jam := Stalls(s.pair, Step(false, Deliver)))
  {
    hide Next, Stalls;
  }

  lemma FullBlocks(e: Endpoint, p: Packet)
    requires Full(e, p)
    ensures e.reader.blocks != []
  {
  }

  lemma {:induction false} Finish(plan: Plan, s: Session, k: nat) returns (more: seq<Move>)
    requires Inv(plan, s) && !s.jam && |s.results| <= |plan.vs| + k
    ensures Play(plan, s, more).results == Arrivals(plan.vs) + EndedTimes(k)
    ensures Play(plan, s, more).response.Some? || |plan.vs| + k == 0
    decreases |plan.vs| + 2 - s.calls, |s.pair.x.flying|, |Script(plan)| - Heard(plan, s), |plan.vs| + k - |s.results|
  {
    hide *;
    InvParts(plan, s);
    if |s.results| == |plan.vs| + k {
      more := [];
      PlayNone(plan, s);
      ResultsAre(plan, s, k);
      if s.results != [] {
        Responded(plan, s);
      }
    } else {
      var m := Onward(plan, s, k);
      var rest := Finish(plan, After(plan, s, m), k);
      more := [m] + rest;
      PlayOne(plan, s, m, rest);
    }
  }

  lemma Responded(plan: Plan, s: Session)
    requires ClientInv(plan, s) && s.results != []
    ensures s.response.Some?
  {
    hide Arrivals, EndedTimes, NormMessage;
  }

  // A delivery that waits, waits for good.

  lemma JamStep(plan: Plan, s: Session, m: Move)
    requires Inv(plan, s) && s.jam && Enabled(plan, s, m)
    ensures After(plan, s, m).jam && After(plan, s, m).results == s.results
  {
    match m
    case ClientCall(sizes) =>
      JamBlocks(plan, s, sizes);
    case Wire(step) =>
      AfterWire(plan, s, step);
      hide After, Next;
    case ServerCall =>
      AfterServer(plan, s);
      hide After, ServerSays, Spoken;
  }

  lemma {:induction false} JamForGood(plan: Plan, s: Session, moves: seq<Move>)
    requires Inv(plan, s) && s.jam
    ensures Play(plan, s, moves).jam && Play(plan, s, moves).results == s.results
    decreases |moves|
  {
    hide Inv, Enabled, After;
    if moves != [] {
      if Enabled(plan, s, moves[0]) {
        JamStep(plan, s, moves[0]);
        MoveKeeps(plan, s, moves[0]);
      }
      JamForGood(plan, if Enabled(plan, s, moves[0]) then After(plan, s, moves[0]) else s, moves[1..]);
    }
  }

  /** What waits has not been taken: there are more messages than have arrived. */
  lemma WaitingIsMore(plan: Plan, s: Session)
    requires Inv(plan, s) && s.jam
    ensures Heard(plan, s) < |s.pair.y.taken| < |Script(plan)|
    ensures CHANNEL <= |s.pair.y.taken|
  {
    hide *;
    InvParts(plan, s);
    JamParts(s);
    FullIsUnread(plan, s);
    LinkIf(s);
    TakenIs(plan, s);
    FlyingMore(plan, s);
    BlocksTaken(s.pair, s.pair.x.flying[0]);
  }

  lemma FlyingMore(plan: Plan, s: Session)
    requires ServerInv(plan, s) && Track(s.pair.x, s.pair.y)
    requires s.pair.x.flying != [] && Full(s.pair.y.ep, s.pair.x.flying[0])
    ensures |s.pair.y.taken| < Written(s.calls) <= |Script(plan)|
  {
    var ms, w, taken, flying := Script(plan), Written(s.calls), s.pair.y.taken, s.pair.x.flying;
    assert BlocksOf(flying) == [flying[0].payload] + BlocksOf(flying[1..]);
    hide Frames, Wraps, BlocksOf, Script, Stands, Flat, NonEmpty, Marks;
    FramesBlocks(ms[..w]);
    WrapsTake(ms[..w], 0);
    assert taken + BlocksOf(flying) == Wraps(ms[..w]);
  }

  lemma BlocksTaken(p: Pair, m: Packet)
    requires Track(p.x, p.y) && Full(p.y.ep, m)
    ensures CHANNEL <= |p.y.taken|
  {
    DropShrinks(p.y.taken, |p.y.read|);
    hide BlocksOf, Flat, Drop, Marks, NonEmpty;
  }

  lemma {:induction false} DropShrinks(blocks: seq<bytes>, n: nat)
    ensures |Drop(blocks, n)| <= |blocks|
    decreases |blocks|
  {
    if blocks != [] && n >= |blocks[0]| {
      DropShrinks(blocks[1..], n - |blocks[0]|);
    }
  }

  /** So some value is still missing. */
  lemma JamIsShort(plan: Plan, s: Session)
    requires Inv(plan, s) && s.jam
    ensures |s.results| < |plan.vs|
  {
    WaitingIsMore(plan, s);
    ScriptIs(plan);
    assert plan.vs != [];
    InvParts(plan, s);
    hide Proper, LinkInv, ServerInv, PlaceInv, JamInv, Script, Arrivals, EndedTimes, NormMessage;
  }

  /**
   * The stream can be finished from exactly the states in which no delivery waits before a full channel:
   * whatever is written, in flight, delivered or half consumed, there are then moves after which the
   * client has received the response, every value, and the end of the stream as often as it asks for it;
   * and when one waits, nothing is received any more.
   */
  lemma StreamCompletes(plan: Plan, server: Ctx, client: Ctx, moves: seq<Move>, k: nat)
    requires Proper(plan) && Fresh(server, client)
    requires |Play(plan, Begin(server, client), moves).results| <= |plan.vs| + k
    ensures var s := Play(plan, Begin(server, client), moves);
      !s.jam <==>
        exists more ::
          && Play(plan, s, more).results == Arrivals(plan.vs) + EndedTimes(k)
          && Play(plan, s, more).response == Some(NormMessage(plan.resp))
  {
    assert plan.vs != [];
    hide *;
    BeginInv(plan, server, client);
    PlayKeeps(plan, Begin(server, client), moves);
    var s := Play(plan, Begin(server, client), moves);
    if s.jam {
      JamIsShort(plan, s);
      ArrivalsLength(plan.vs);
      forall more
        ensures Play(plan, s, more).results != Arrivals(plan.vs) + EndedTimes(k)
      {
        JamForGood(plan, s, more);
      }
    } else {
      var more := Finish(plan, s, k);
      PlayKeeps(plan, s, more);
      InvParts(plan, Play(plan, s, more));
      RespondedWith(plan, Play(plan, s, more));
    }
  }

  /** A conversation that fits the channel never gets there, */
  lemma ShortNeverJams(plan: Plan, server: Ctx, client: Ctx, moves: seq<Move>)
    requires Proper(plan) && Fresh(server, client) && |plan.vs| + 3 <= CHANNEL
    ensures !Play(plan, Begin(server, client), moves).jam
  {
    hide *;
    BeginInv(plan, server, client);
    PlayKeeps(plan, Begin(server, client), moves);
    var s := Play(plan, Begin(server, client), moves);
    ScriptIs(plan);
    if s.jam {
      WaitingIsMore(plan, s);
    }
  }

  /** and every longer one can, if the client does not read in time. */
  lemma LongCanJam(plan: Plan, server: Ctx, client: Ctx)
    requires Proper(plan) && Fresh(server, client) && |plan.vs| + 3 > CHANNEL
    ensures exists moves :: Play(plan, Begin(server, client), moves).jam
  {
    hide *;
    BeginInv(plan, server, client);
    BeginUnread(server, client);
    ScriptIs(plan);
    var moves := Stuff(plan, Begin(server, client));
  }

  lemma BeginUnread(server: Ctx, client: Ctx)
    ensures var s := Begin(server, client);
      s.response == None && !s.jam && s.pair.y.taken == []
  {
  }

  /** The server calls, packets are delivered, and the client does nothing. */
  lemma {:induction false} Stuff(plan: Plan, s: Session) returns (moves: seq<Move>)
    requires Inv(plan, s) && s.response == None && !s.jam
    requires |s.pair.y.taken| <= CHANNEL < |Script(plan)|
    ensures Play(plan, s, moves).jam
    decreases |plan.vs| + 2 - s.calls, |s.pair.x.flying|
  {
    hide *;
    InvParts(plan, s);
    ServerParts(plan, s);
    var m;
    if s.calls <= |plan.vs| + 1 {
      m := ServerCall;
      ServerMay(plan, s);
      AfterServer(plan, s);
      SpokenPeer(s.pair, ServerSays(plan, s));
    } else {
      LinkIf(s);
      TakenIs(plan, s);
      m := Wire(Step(false, Deliver));
      DeliverMay(plan, s);
      UnreadDelivery(plan, s);
    }
    MoveKeeps(plan, s, m);
    var t := After(plan, s, m);
    InvParts(plan, t);
    ServerParts(plan, t);
    if t.jam {
      moves := [m] + [];
      PlayOne(plan, s, m, []);
      PlayNone(plan, t);
    } else {
      var rest := Stuff(plan, t);
      moves := [m] + rest;
      PlayOne(plan, s, m, rest);
    }
  }

  /** A delivery to a client that has read nothing stalls at 128 blocks, and adds at most one before. */
  lemma UnreadDelivery(plan: Plan, s: Session)
    requires Inv(plan, s) && s.response == None && s.pair.x.flying != [] && |s.pair.y.taken| <= CHANNEL
    ensures var p, step := s.pair, Step(false, Deliver);
      Stalls(p, step) || (|Next(p, step).x.flying| < |p.x.flying| && |Next(p, step).y.taken| <= CHANNEL)
  {
    InvParts(plan, s);
    JamParts(s);
    PlaceParts(plan, s);
    CalmFacts(s.pair);
    CalmTidy(s.pair);
    assert Offset(Script(plan), 0) == 0 by { assert Script(plan)[..0] == []; }
    UnreadBlocks(s.pair);
    TidyTail(s.pair.x.flying);
    hide Calm, Track, Script, Tidy, Offset, ClientInv, ServerInv, Proper, LinkInv;
    DeliveryAdds(s.pair);
  }

  lemma UnreadBlocks(p: Pair)
    requires Track(p.x, p.y) && p.y.read == [] && p.y.ep.reader.buf == []
    ensures p.y.ep.reader.blocks == p.y.taken
  {
    DropNone(p.y.taken);
    hide BlocksOf, Flat, Drop, Marks, NonEmpty;
  }

  lemma DeliveryAdds(p: Pair)
    requires p.x.flying != [] && p.x.flying[0].Data? && p.y.ep.state.RecvData().None? && !p.y.ep.reader.closed
    requires p.y.ep.reader.blocks == p.y.taken && |p.y.taken| <= CHANNEL
    ensures var step := Step(false, Deliver);
      Stalls(p, step) || (|Next(p, step).x.flying| < |p.x.flying| && |Next(p, step).y.taken| <= CHANNEL)
  {
    hide Handle;
  }

  lemma RespondedWith(plan: Plan, s: Session)
    requires ClientInv(plan, s) && s.response.Some?
    ensures s.response == Some(NormMessage(plan.resp))
  {
    hide Arrivals, EndedTimes, NormMessage;
  }

  // Once the end has been delivered.

  /** How many of the moves are calls that the client makes. */
  ghost function ClientCalls(plan: Plan, s: Session, moves: seq<Move>): nat
    decreases |moves|
  {
    if moves == [] then 0
    else if !Enabled(plan, s, moves[0]) then ClientCalls(plan, s, moves[1..])
    else (if moves[0].ClientCall? then 1 else 0) + ClientCalls(plan, After(plan, s, moves[0]), moves[1..])
  }

  /** The end of the stream and the response have reached the client. */
  ghost predicate Ended(s: Session) { s.pair.y.ended && s.response.Some? }

  lemma EndedCall(plan: Plan, s: Session, sizes: seq<nat>)
    requires Inv(plan, s) && Ended(s) && Enabled(plan, s, ClientCall(sizes))
    ensures var t := After(plan, s, ClientCall(sizes));
      Ended(t) && |t.results| == |s.results| + 1
  {
    hide *;
    InvParts(plan, s);
    LinkIf(s);
    EndedParts(s);
    ArrivedIs(plan, s);
    AfterClient(plan, s, sizes);
    ClientConcludes(plan, s);
    ReadingRuns(s.pair, sizes);
    EndedAnswers(plan, s, ClientGets(plan, s), Run(s.pair, Reading(sizes)));
  }

  lemma EndedParts(s: Session)
    requires Ended(s)
    ensures s.pair.y.ended && s.response.Some?
  {
  }

  lemma EndedAnswers(plan: Plan, s: Session, r: Received, q: Pair)
    requires Concludes(plan, s, r) && s.response.Some? && |s.pair.y.taken| == |Script(plan)| && q.y.ended
    ensures var t := Heeds(s, r).(pair := q);
      Ended(t) && |t.results| == |s.results| + 1
  {
    hide ClientInv, Offset, Script, Heard;
  }

  lemma EndedStays(plan: Plan, s: Session, m: Move)
    requires Ended(s) && Enabled(plan, s, m) && !m.ClientCall?
    ensures Ended(After(plan, s, m)) && After(plan, s, m).results == s.results
  {
    if m.Wire? {
      StepEnded(s.pair, m.step);
      hide Next;
    } else {
      hide ServerSays;
    }
  }

  lemma StepEnded(p: Pair, step: Step)
    requires p.y.ended
    ensures Next(p, step).y.ended
  {
    hide Handle, Full, Segments, AfterRead, ReadOutcome, WriteCall, CloseCall, ResetCall;
  }

  lemma {:induction false} EndedCounts(plan: Plan, s: Session, moves: seq<Move>)
    requires Inv(plan, s) && Ended(s)
    ensures |Play(plan, s, moves).results| == |s.results| + ClientCalls(plan, s, moves)
    decreases |moves|
  {
    hide Inv, Ended, Enabled, After;
    if moves != [] {
      var m := moves[0];
      if Enabled(plan, s, m) {
        MoveKeeps(plan, s, m);
        if m.ClientCall? {
          EndedCall(plan, s, m.sizes);
        } else {
          EndedStays(plan, s, m);
        }
        EndedCounts(plan, After(plan, s, m), moves[1..]);
      } else {
        EndedCounts(plan, s, moves[1..]);
      }
    }
  }

  /**
   * Once the end of the stream has been delivered no Recv waits: however the moves go on, the calls
   * that bring their number to |vs| + k have returned exactly the values and then k times the end.
   */
  lemma RecvsAfterTheEnd(plan: Plan, server: Ctx, client: Ctx, moves: seq<Move>, more: seq<Move>, k: nat)
    requires Proper(plan) && Fresh(server, client) && Ended(Play(plan, Begin(server, client), moves))
    requires var s := Play(plan, Begin(server, client), moves);
      |s.results| + ClientCalls(plan, s, more) == |plan.vs| + k
    ensures var s := Play(plan, Begin(server, client), moves);
      Play(plan, s, more).results == Arrivals(plan.vs) + EndedTimes(k)
  {
    hide *;
    BeginInv(plan, server, client);
    PlayKeeps(plan, Begin(server, client), moves);
    var s := Play(plan, Begin(server, client), moves);
    EndedCounts(plan, s, more);
    PlayKeeps(plan, s, more);
    InvParts(plan, Play(plan, s, more));
    ResultsAre(plan, Play(plan, s, more), k);
  }
}
