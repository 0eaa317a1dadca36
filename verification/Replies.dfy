/**
 * The other ways in which a call ends: the response that does not stream, the stream that fails, the
 * message out of place - and that a context, once it has failed, has failed for good.
 */
module Replies {
  import opened Base
  import opened Readers
  import opened Values
  import opened Codec
  import opened Blocks
  import opened Streams
  import opened Pair
  import opened PairLaws
  import opened Messages
  import opened MessageLoops
  import opened Contexts
  import opened Streaming
  import Sessions

  // For good.

  /** A Recv that failed leaves a context in which every Recv fails the same way, whatever there is to read. */
  lemma RecvFailsForGood(c: Ctx, inp: Input, pos: nat, later: Input, at: nat)
    requires pos <= |inp.data| && at <= |later.data|
    ensures var r := Recv(c, inp, pos);
      r.result.Failed? ==> Recv(r.ctx, later, at) == Received(r.result, r.ctx, at)
  {
    hide ReadMessage;
    RecvItemKeeps(c, inp, pos);
    if c.hasRecv && c.err.None? && c.recvError.None? && !c.recvStarted {
      var m := ReadMessage(inp, pos);
      if m.Ok? {
        RecvItemKeeps(c.(recvStarted := true), inp, m.pos);
      }
    }
    hide RecvItem;
  }

  lemma {:induction false} RecvItemKeeps(c: Ctx, inp: Input, pos: nat)
    requires pos <= |inp.data|
    ensures var r := RecvItem(c, inp, pos);
      && r.ctx.hasRecv == c.hasRecv && r.ctx.recvStarted == c.recvStarted
      && (c.err.None? && c.recvError.None? ==>
            match r.result
            case Failed(t) => r.ctx.err == Some(t) || (r.ctx.err.None? && r.ctx.recvError == Some(t))
            case _ => r.ctx.err.None? && r.ctx.recvError.None?)
    decreases |inp.data| - pos
  {
    hide ReadMessage;
    var m := ReadMessage(inp, pos);
    if m.Ok? && m.value.StreamMetadata? {
      RecvItemKeeps(c.(meta := m.value.meta), inp, m.pos);
    }
  }

  /** The context refuses to send, and why. */
  predicate Spent(c: Ctx, t: Trouble) {
    if !c.hasSend then t == NoStream else c.err == Some(t) || (c.err.None? && c.sendError == Some(t))
  }

  lemma SpentRefuses(c: Ctx, t: Trouble, e: Endpoint, v: Value)
    requires Spent(c, t)
    ensures Send(c, e, v) == Sent(c, e, [], Some(t)) && EndSend(c, e) == Sent(c, e, [], Some(t))
  {
    hide WriteCall, Wrap, Supported;
  }

  lemma ItemSpends(c: Ctx, e: Endpoint, v: Value)
    requires c.hasSend && c.err.None? && c.sendError.None? && SendItem(c, e, v).err.Some?
    ensures Spent(SendItem(c, e, v).ctx, SendItem(c, e, v).err.value)
  {
    hide WriteCall, Wrap, Supported;
  }

  lemma SendSpends(c: Ctx, e: Endpoint, v: Value)
    ensures Send(c, e, v).err.Some? ==> Spent(Send(c, e, v).ctx, Send(c, e, v).err.value)
    ensures EndSend(c, e).err.Some? ==> Spent(EndSend(c, e).ctx, EndSend(c, e).err.value)
  {
    hide WriteCall, Wrap, Supported, SendItem;
    if c.hasSend && c.err.None? && c.sendError.None? {
      if c.sendStarted {
        if SendItem(c, e, v).err.Some? {
          ItemSpends(c, e, v);
        }
      } else {
        var w := WriteCall(e, Wrap(StartStream), false);
        if w.err.None? && SendItem(c.(sendStarted := true), w.ep, v).err.Some? {
          ItemSpends(c.(sendStarted := true), w.ep, v);
        }
      }
    }
  }

  /** A Send or an EndSend that failed leaves a context in which both fail the same way, and write nothing. */
  lemma SendFailsForGood(c: Ctx, e: Endpoint, v: Value, e2: Endpoint, v2: Value)
    ensures var s := Send(c, e, v);
      s.err.Some? ==> Send(s.ctx, e2, v2) == Sent(s.ctx, e2, [], s.err) && EndSend(s.ctx, e2) == Sent(s.ctx, e2, [], s.err)
    ensures var s := EndSend(c, e);
      s.err.Some? ==> Send(s.ctx, e2, v2) == Sent(s.ctx, e2, [], s.err) && EndSend(s.ctx, e2) == Sent(s.ctx, e2, [], s.err)
  {
    hide Send, EndSend, Spent;
    SendSpends(c, e, v);
    var s, t := Send(c, e, v), EndSend(c, e);
    if s.err.Some? {
      SpentRefuses(s.ctx, s.err.value, e2, v2);
    }
    if t.err.Some? {
      SpentRefuses(t.ctx, t.err.value, e2, v2);
    }
  }

  /** Trouble with the stream itself or with the order of its messages, which ends both directions. */
  predicate Shared(t: Trouble) { t.Broken? || t == Unexpected }

  /**
   * What a Send leaves of receiving: nothing, if it failed to write; everything, if it succeeded, or
   * failed for a value that cannot be encoded, or had failed before.
   */
  lemma SendThenRecv(c: Ctx, e: Endpoint, v: Value, inp: Input, pos: nat)
    requires pos <= |inp.data| && c.hasRecv && c.err.None?
    ensures var s := Send(c, e, v);
      if s.err.Some? && c.hasSend && c.sendError.None? && Shared(s.err.value)
      then Recv(s.ctx, inp, pos) == Received(Failed(s.err.value), s.ctx, pos)
      else Recv(s.ctx, inp, pos).result == Recv(c, inp, pos).result && Recv(s.ctx, inp, pos).pos == Recv(c, inp, pos).pos
  {
    SendKeeps(c, e, v);
    SameRecv(c, Send(c, e, v).ctx, inp, pos);
    hide Send, RecvItem, ReadMessage;
  }

  lemma SendKeeps(c: Ctx, e: Endpoint, v: Value)
    requires c.err.None?
    ensures var s := Send(c, e, v);
      && s.ctx.hasRecv == c.hasRecv && s.ctx.recvError == c.recvError && s.ctx.recvStarted == c.recvStarted
      && s.ctx.err == if s.err.Some? && c.hasSend && c.sendError.None? && Shared(s.err.value) then s.err else None
  {
    hide WriteCall, Wrap, Supported, SendItem;
    ItemKeeps(c, e, v);
    ItemKeeps(c.(sendStarted := true), WriteCall(e, Wrap(StartStream), false).ep, v);
  }

  lemma ItemKeeps(c: Ctx, e: Endpoint, v: Value)
    requires c.err.None?
    ensures var s := SendItem(c, e, v);
      && s.ctx.hasRecv == c.hasRecv && s.ctx.recvError == c.recvError && s.ctx.recvStarted == c.recvStarted
      && s.ctx.err == if s.err.Some? && Shared(s.err.value) then s.err else None
  {
    hide WriteCall, Wrap, Supported;
  }

  /** Recv looks at its own half of the context. */
  lemma SameRecv(c: Ctx, d: Ctx, inp: Input, pos: nat)
    requires pos <= |inp.data|
    ensures d.hasRecv == c.hasRecv && d.recvError == c.recvError && d.recvStarted == c.recvStarted && d.err == c.err ==>
      Recv(d, inp, pos).result == Recv(c, inp, pos).result && Recv(d, inp, pos).pos == Recv(c, inp, pos).pos
  {
    hide ReadMessage;
    if d.hasRecv == c.hasRecv && d.recvError == c.recvError && d.recvStarted == c.recvStarted && d.err == c.err {
      SameItem(c, d, inp, pos);
      var m := ReadMessage(inp, pos);
      if m.Ok? {
        SameItem(c.(recvStarted := true), d.(recvStarted := true), inp, m.pos);
      }
    }
    hide RecvItem;
  }

  lemma {:induction false} SameItem(c: Ctx, d: Ctx, inp: Input, pos: nat)
    requires pos <= |inp.data|
    ensures RecvItem(d, inp, pos).result == RecvItem(c, inp, pos).result && RecvItem(d, inp, pos).pos == RecvItem(c, inp, pos).pos
    decreases |inp.data| - pos
  {
    hide ReadMessage;
    var m := ReadMessage(inp, pos);
    if m.Ok? && m.value.StreamMetadata? {
      SameItem(c.(meta := m.value.meta), d.(meta := m.value.meta), inp, m.pos);
    }
  }

  /**
   * What a Recv leaves of sending: nothing, if the stream broke or a message was out of place;
   * everything, if it succeeded or waits, or the peer ended its stream or reported an error on it.
   */
  lemma RecvThenSend(c: Ctx, inp: Input, pos: nat, e: Endpoint, v: Value)
    requires pos <= |inp.data| && c.hasSend && c.err.None?
    ensures var r := Recv(c, inp, pos);
      var s, t := Send(r.ctx, e, v), Send(c, e, v);
      if r.result.Failed? && c.hasRecv && c.recvError.None? && Shared(r.result.trouble)
      then s == Sent(r.ctx, e, [], Some(r.result.trouble)) && EndSend(r.ctx, e) == s
      else s.out == t.out && s.err == t.err && s.ep == t.ep && EndSend(r.ctx, e).out == EndSend(c, e).out
  {
    RecvKeeps(c, inp, pos);
    SameSend(c, Recv(c, inp, pos).ctx, e, v);
    hide Recv, WriteCall, Wrap, Supported, SendItem;
  }

  lemma RecvKeeps(c: Ctx, inp: Input, pos: nat)
    requires pos <= |inp.data| && c.err.None?
    ensures var r := Recv(c, inp, pos);
      && r.ctx.hasSend == c.hasSend && r.ctx.sendError == c.sendError && r.ctx.sendStarted == c.sendStarted
      && r.ctx.err == if r.result.Failed? && c.hasRecv && c.recvError.None? && Shared(r.result.trouble) then Some(r.result.trouble) else None
  {
    hide ReadMessage, RecvItem;
    ItemLeaves(c, inp, pos);
    var m := ReadMessage(inp, pos);
    if m.Ok? {
      ItemLeaves(c.(recvStarted := true), inp, m.pos);
    }
  }

  lemma {:induction false} ItemLeaves(c: Ctx, inp: Input, pos: nat)
    requires pos <= |inp.data| && c.err.None?
    ensures var r := RecvItem(c, inp, pos);
      && r.ctx.hasSend == c.hasSend && r.ctx.sendError == c.sendError && r.ctx.sendStarted == c.sendStarted
      && r.ctx.err == if r.result.Failed? && Shared(r.result.trouble) then Some(r.result.trouble) else None
    decreases |inp.data| - pos
  {
    hide ReadMessage;
    var m := ReadMessage(inp, pos);
    if m.Ok? && m.value.StreamMetadata? {
      ItemLeaves(c.(meta := m.value.meta), inp, m.pos);
    }
  }

  /** Send and EndSend look at their own half of the context. */
  lemma SameSend(c: Ctx, d: Ctx, e: Endpoint, v: Value)
    ensures d.hasSend == c.hasSend && d.sendError == c.sendError && d.sendStarted == c.sendStarted && d.err == c.err ==>
      var s, t := Send(d, e, v), Send(c, e, v);
      s.out == t.out && s.err == t.err && s.ep == t.ep && EndSend(d, e).out == EndSend(c, e).out
  {
    hide WriteCall, Wrap, Supported;
  }

  /** A ReadResponse that failed has ended everything, and has failed for good. */
  lemma ResponseFails(c: Ctx, inp: Input, pos: nat, later: Input, at: nat, e: Endpoint, v: Value)
    requires pos <= |inp.data| && at <= |later.data|
    ensures var r := TakeResponse(c, inp, pos);
      r.result.Failed? ==>
        && TakeResponse(r.ctx, later, at) == Received(r.result, r.ctx, at)
        && (c.hasRecv ==> Recv(r.ctx, later, at) == Received(r.result, r.ctx, at))
        && (c.hasSend ==> Send(r.ctx, e, v) == Sent(r.ctx, e, [], Some(r.result.trouble)))
  {
    hide ReadExpected, ReadMessage, RecvItem, WriteCall, Wrap, Supported;
  }

  /** A response that is not written - for a parameter that cannot be encoded, or a stream that is shut - leaves no trace on the stream. */
  lemma ResponseRefused(c: Ctx, e: Endpoint, resp: Message<Value>)
    requires resp.Response?
    ensures var s := SendResponse(c, e, resp);
      && (s.err.None? <==> AllSupported(resp.params) && e.state.Send().None?)
      && (s.err.Some? ==> s.ep == e && s.out == [] && s.ctx.err == c.err && s.ctx.sendError == c.sendError)
      && (!AllSupported(resp.params) ==> s.ctx == c)
  {
    hide Wrap, AllSupported, Segments;
  }

  // A stream of items and metadata, and what ends it.

  predicate Passing(m: Message<Value>) { m.StreamItem? || m.StreamMetadata? }

  /** What the items among the messages come back as. */
  function ItemsOf(body: seq<Message<Value>>): seq<Result> {
    if body == [] then []
    else (if body[0].StreamItem? then [Item(Norm(body[0].value))] else []) + ItemsOf(body[1..])
  }

  /** The metadata noted last. */
  function LastMeta(meta: Metadata, body: seq<Message<Value>>): Metadata
    decreases |body|
  {
    if body == [] then meta else LastMeta(if body[0].StreamMetadata? then body[0].meta else meta, body[1..])
  }

  /** What any other message makes of the stream. */
  function Verdict(m: Message<Value>): Trouble {
    match m
    case EndStream => StreamEnded
    case StreamError(status, meta) => PeerError(status, meta)
    case _ => Unexpected
  }

  function Times(k: nat, t: Trouble): seq<Result> { if k == 0 then [] else [Failed(t)] + Times(k - 1, t) }

  /** The context after `k` calls. */
  function CtxAfter(c: Ctx, inp: Input, pos: nat, k: nat): Ctx
    requires pos <= |inp.data|
    decreases k
  {
    if k == 0 then c
    else
      var r := Recv(c, inp, pos);
      CtxAfter(r.ctx, inp, r.pos, k - 1)
  }

  lemma {:induction false} FailedTimes(c: Ctx, inp: Input, pos: nat, k: nat, t: Trouble)
    requires c.hasRecv && pos <= |inp.data|
    requires c.err == Some(t) || (c.err.None? && c.recvError == Some(t))
    ensures Recvs(c, inp, pos, k) == Times(k, t) && CtxAfter(c, inp, pos, k) == c
    decreases k
  {
    if k > 0 {
      FailedTimes(c, inp, pos, k - 1, t);
    }
  }

  lemma LastRead(c: Ctx, last: Message<Value>, inp: Input, pos: nat, p: nat)
    requires Listening(c) && c.recvStarted && !Passing(last) && pos <= |inp.data|
    requires ReadMessage(inp, pos) == Ok(NormMessage(last), p)
    ensures var r := Recv(c, inp, pos);
      && r.result == Failed(Verdict(last)) && r.pos == p && r.ctx.hasRecv && r.ctx.meta == c.meta
      && (r.ctx.err == Some(Verdict(last)) || (r.ctx.err.None? && r.ctx.recvError == Some(Verdict(last))))
  {
    hide ReadMessage, NormAll;
  }

  lemma ItemRead(c: Ctx, m: Message<Value>, inp: Input, pos: nat, p: nat)
    requires Listening(c) && c.recvStarted && m.StreamItem? && pos <= |inp.data|
    requires ReadMessage(inp, pos) == Ok(NormMessage(m), p)
    ensures Recv(c, inp, pos) == Received(Item(Norm(m.value)), c, p)
  {
    hide ReadMessage, Norm;
  }

  lemma MetaRead(c: Ctx, m: Message<Value>, inp: Input, pos: nat, p: nat)
    requires Listening(c) && c.recvStarted && m.StreamMetadata? && pos <= p <= |inp.data|
    requires ReadMessage(inp, pos) == Ok(NormMessage(m), p)
    ensures Recv(c, inp, pos) == Recv(c.(meta := m.meta), inp, p)
    ensures Listening(c.(meta := m.meta))
  {
    hide ReadMessage;
  }

  lemma Progress(inp: Input, pos: nat, m: Message<Decoded>, p: nat)
    requires pos <= |inp.data| && ReadMessage(inp, pos) == Ok(m, p)
    ensures pos < p <= |inp.data|
  {
    hide ReadMessage;
  }

  ghost predicate AllGood(ms: seq<Message<Value>>, known: set<bytes>) {
    forall i :: 0 <= i < |ms| ==> Good(ms[i], known) && CountsFit(ms[i])
  }

  /**
   * Whatever items and metadata a stream carries, and whatever ends it: Recv returns the items in normal
   * form, in order, and then from every later call what the ending message means - the end of the
   * stream, the peer's error with its status and metadata, or, for a message out of place, a failure -
   * and the metadata noted is the last that came.
   */
  lemma {:induction false} RecvsExactly(c: Ctx, body: seq<Message<Value>>, last: Message<Value>, inp: Input, pos: nat, k: nat)
    requires Listening(c) && c.recvStarted && AllGood(body + [last], inp.known)
    requires (forall i :: 0 <= i < |body| ==> Passing(body[i])) && !Passing(last)
    requires Laid(inp, pos, NoLimit(inp), AllPieces(body + [last]))
    ensures pos <= |inp.data|
    ensures var n := |ItemsOf(body)|;
      && Recvs(c, inp, pos, n + k) == ItemsOf(body) + Times(k, Verdict(last))
      && CtxAfter(c, inp, pos, n + 1).meta == LastMeta(c.meta, body)
    decreases |body|
  {
    hide Laid, AllPieces, ReadMessage, Good, Norm, MessagePieces, Wrap, Join, ReadExpected, CountsFit, Recv, NormMessage, Listening, Verdict;
    var all := body + [last];
    var m, rest := all[0], all[1..];
    assert all == [m] + rest;
    HeadMessage(m, rest, inp, pos);
    var p := pos + |Wrap(m)|;
    Progress(inp, pos, NormMessage(m), p);
    if body == [] {
      LastRead(c, last, inp, pos, p);
      var r := Recv(c, inp, pos);
      FailedTimes(r.ctx, inp, p, 0, Verdict(last));
      if k > 0 {
        FailedTimes(r.ctx, inp, p, k - 1, Verdict(last));
      }
    } else {
      assert rest == body[1..] + [last];
      if m.StreamItem? {
        ItemRead(c, m, inp, pos, p);
        RecvsExactly(c, body[1..], last, inp, p, k);
      } else {
        MetaRead(c, m, inp, pos, p);
        var c' := c.(meta := m.meta);
        RecvsExactly(c', body[1..], last, inp, p, k);
        SameCalls(c, c', inp, pos, p, |ItemsOf(body)| + k);
        SameCalls(c, c', inp, pos, p, |ItemsOf(body)| + 1);
      }
    }
  }

  lemma SameCalls(c: Ctx, c': Ctx, inp: Input, pos: nat, p: nat, k: nat)
    requires pos <= |inp.data| && p <= |inp.data| && Recv(c, inp, pos) == Recv(c', inp, p)
    ensures Recvs(c, inp, pos, k) == Recvs(c', inp, p, k)
    ensures k > 0 ==> CtxAfter(c, inp, pos, k) == CtxAfter(c', inp, p, k)
  {
    hide Recv;
  }

  // A handler that fails.

  /** What it is reported with. */
  lemma FailureSays(c: Ctx, e: Endpoint, status: nat, meta: Metadata)
    requires e.state.Send().None?
    ensures var r := EmitError(c, e, status, meta);
      && r.ep.state.Send().Some?
      && Payloads(r.out) == Wrap(if c.sendStarted then StreamError(status, meta) else Response(status, false, meta, []))
      && forall i :: 0 <= i < |r.out| ==> r.out[i].Data? && r.out[i].endStream
  {
    hide Wrap, Segments;
    SegmentsCarry(Wrap(FailureMessage(c, status, meta)), true);
  }

  /** On a stream that cannot send, not even the reset that is then tried has any effect. */
  lemma FailureUnsaid(c: Ctx, e: Endpoint, status: nat, meta: Metadata)
    requires e.state.Send().Some?
    ensures EmitError(c, e, status, meta).ep == e && EmitError(c, e, status, meta).out == []
  {
    hide Wrap, Segments;
  }

  /** The response, the Sends, and then the report of the failure. */
  ghost function ServeFailing(c: Ctx, e: Endpoint, resp: Message<Value>, vs: seq<Value>, status: nat, meta: Metadata): seq<Packet>
    requires resp.Response?
  {
    var r := SendResponse(c, e, resp);
    var s := SendAll(r.ctx, r.ep, vs);
    r.out + (s.out + EmitError(s.ctx, s.ep, status, meta).out)
  }

  function FailedStream(resp: Message<Value>, vs: seq<Value>, status: nat, meta: Metadata): seq<Message<Value>> {
    [resp] + ([StartStream] + (Items(vs) + [StreamError(status, meta)]))
  }

  lemma FailingSends(c: Ctx, e: Endpoint, resp: Message<Value>, vs: seq<Value>, status: nat, meta: Metadata)
    requires resp.Response? && resp.streaming && vs != [] && e.state.Send().None?
    requires c.err.None? && c.sendError.None? && AllSupported(resp.params) && AllSupported(vs)
    requires Fits(resp) && Fits(StreamError(status, meta)) && forall v :: v in vs ==> Fits(StreamItem(v))
    ensures BlocksOf(ServeFailing(c, e, resp, vs, status, meta)) == Wraps(FailedStream(resp, vs, status, meta))
  {
    ShortMessages();
    var last := StreamError(status, meta);
    var c1 := c.(hasSend := true, sendStarted := false);
    hide Wrap, WriteCall, Supported, Frames, AllSupported, Items, SendAll, EmitError, BlocksOf, Wraps;
    OneFrame(e, resp);
    SendFirst(c1, e, vs);
    var c2 := c1.(sendStarted := true);
    LastFrame(c2, e, status, meta);
    var out := EmitError(c2, e, status, meta).out;
    var first, mid := Frames([resp]), Frames([StartStream]) + Frames(Items(vs));
    assert ServeFailing(c, e, resp, vs, status, meta) == first + (mid + out);
    BlocksAppend(first, mid + out);
    BlocksAppend(mid, out);
    BlocksAppend(Frames([StartStream]), Frames(Items(vs)));
    FramesBlocks([resp]);
    FramesBlocks([StartStream]);
    FramesBlocks(Items(vs));
    WrapsConcat([resp], [StartStream] + (Items(vs) + [last]));
    WrapsConcat([StartStream], Items(vs) + [last]);
    WrapsConcat(Items(vs), [last]);
    WrapsOne(last);
    var a, b, d, z := Wraps([resp]), Wraps([StartStream]), Wraps(Items(vs)), Wraps([last]);
    assert a + ((b + d) + z) == a + (b + (d + z));
  }

  lemma WrapsOne(m: Message<Value>)
    ensures Wraps([m]) == [Wrap(m)]
  {
    hide Wrap;
    assert [m][1..] == [];
  }

  lemma {:induction false} WrapsConcat(a: seq<Message<Value>>, b: seq<Message<Value>>)
    ensures Wraps(a + b) == Wraps(a) + Wraps(b)
  {
    hide Wrap;
    if a == [] {
      assert a + b == b;
    } else {
      assert (a + b)[1..] == a[1..] + b && (a + b)[0] == a[0];
      WrapsConcat(a[1..], b);
    }
  }

  lemma LastFrame(c: Ctx, e: Endpoint, status: nat, meta: Metadata)
    requires c.sendStarted && e.state.Send().None? && Fits(StreamError(status, meta))
    ensures BlocksOf(EmitError(c, e, status, meta).out) == [Wrap(StreamError(status, meta))]
  {
    var m := StreamError(status, meta);
    WrapBytes(m);
    hide Wrap;
    var p := Data(Wrap(m), true, true);
    assert EmitError(c, e, status, meta).out == [p];
    assert BlocksOf([p]) == [Wrap(m)] + BlocksOf([]) by { assert [p][1..] == []; }
  }

  /**
   * A handler that fails in the middle of its stream: what its server sends is read as the response, the
   * values sent before, and then, from every later call, the peer's error.
   */
  lemma FailingStream(server: Ctx, client: Ctx, resp: Message<Value>, vs: seq<Value>, status: nat, meta: Metadata,
                      tail: Error, known: set<bytes>, k: nat)
    requires resp.Response? && resp.streaming && vs != [] && server.err.None? && server.sendError.None?
    requires AllSupported(resp.params) && Fits(resp) && Good(resp, known) && CountsFit(resp)
    requires AllSupported(vs) && forall v :: v in vs ==> Fits(StreamItem(v)) && Good(StreamItem(v), known)
    requires Fits(StreamError(status, meta)) && Good(StreamError(status, meta), known) && CountsFit(StreamError(status, meta))
    requires Listening(client) && !client.recvStarted
    ensures var inp := FromBlocks(BlocksOf(ServeFailing(server, NewEndpoint, resp, vs, status, meta)), tail, known);
      && |Wrap(resp)| <= |inp.data|
      && ReadExpected(2, inp, 0) == Ok(NormMessage(resp), |Wrap(resp)|)
      && Recvs(client, inp, |Wrap(resp)|, |vs| + k) == Arrivals(vs) + Times(k, PeerError(status, meta))
  {
    hide *;
    var last := StreamError(status, meta);
    var ms := FailedStream(resp, vs, status, meta);
    var inp := FromBlocks(BlocksOf(ServeFailing(server, NewEndpoint, resp, vs, status, meta)), tail, known);
    NewCanSend();
    FailingSends(server, NewEndpoint, resp, vs, status, meta);
    MessagesLaid(ms, tail, known);
    InputKnown(Wraps(ms), tail, known);
    FailedIs(resp, vs, status, meta);
    HeadMessage(resp, [StartStream] + (Items(vs) + [last]), inp, 0);
    GoodEnd(known);
    StartFits();
    var p, q := |Wrap(resp)|, |Wrap(resp)| + |Wrap(StartStream)|;
    HeadMessage(StartStream, Items(vs) + [last], inp, p);
    ListeningStarts(client);
    ItemsPass(vs, last, known);
    RecvsExactly(client.(recvStarted := true), Items(vs), last, inp, q, k);
    RecvStarts(client, inp, p, q, |vs| + k);
  }

  lemma FailedIs(resp: Message<Value>, vs: seq<Value>, status: nat, meta: Metadata)
    requires resp.Response?
    ensures FailedStream(resp, vs, status, meta) == [resp] + ([StartStream] + (Items(vs) + [StreamError(status, meta)]))
    ensures Kind(resp) == 2 && Verdict(StreamError(status, meta)) == PeerError(status, meta) && !Passing(StreamError(status, meta))
  {
  }

  lemma {:induction false} ItemsAreArrivals(vs: seq<Value>)
    ensures ItemsOf(Items(vs)) == Arrivals(vs) && |Items(vs)| == |vs| && |Arrivals(vs)| == |vs|
  {
    hide Norm;
    if vs != [] {
      ItemsAreArrivals(vs[1..]);
      assert Items(vs)[1..] == Items(vs[1..]);
    }
  }

  lemma ItemsPass(vs: seq<Value>, last: Message<Value>, known: set<bytes>)
    requires forall v :: v in vs ==> Good(StreamItem(v), known)
    requires Good(last, known) && CountsFit(last)
    ensures AllGood(Items(vs) + [last], known) && forall i :: 0 <= i < |Items(vs)| ==> Passing(Items(vs)[i])
    ensures ItemsOf(Items(vs)) == Arrivals(vs) && |ItemsOf(Items(vs))| == |vs|
  {
    hide Good, Items, ItemsOf, Arrivals;
    ItemsAreArrivals(vs);
    var all := Items(vs) + [last];
    forall i | 0 <= i < |all|
      ensures Good(all[i], known) && CountsFit(all[i]) && (i < |vs| ==> Passing(all[i]))
    {
      if i < |vs| {
        Sessions.ItemAt(vs, i);
        assert vs[i] in vs;
      }
    }
    forall i | 0 <= i < |Items(vs)|
      ensures Passing(Items(vs)[i])
    {
      assert all[i] == Items(vs)[i];
    }
  }

  // A response that does not stream.

  /** Its packets are the response and all end the stream, after which the server's end cannot send. */
  lemma UnaryEnds(c: Ctx, e: Endpoint, resp: Message<Value>)
    requires resp.Response? && !resp.streaming && AllSupported(resp.params) && e.state.Send().None?
    ensures var s := SendResponse(c, e, resp);
      && s.err == None && !s.ctx.hasSend && s.ep.state.Send().Some?
      && Payloads(s.out) == Wrap(resp) && s.out != []
      && (forall i :: 0 <= i < |s.out| ==> s.out[i].Data? && s.out[i].endStream)
      && (Fits(resp) ==> s.out == [Data(Wrap(resp), true, true)])
  {
    hide Wrap, AllSupported;
    SegmentsCarry(Wrap(resp), true);
  }

  /** What is in flight is the last of what was sent; and an end that was sent shuts the sender. */
  ghost predicate Trails(s: Side) {
    && |s.flying| <= |s.sent| && s.sent[|s.sent| - |s.flying|..] == s.flying
    && (HasEnd(s.sent) ==> LocalShut(s))
  }

  lemma SentTrails(s: Side, s': Side, out: seq<Packet>)
    requires Trails(s) && s'.flying == s.flying + out && s'.sent == s.sent + out
    requires (LocalShut(s) ==> LocalShut(s')) && (HasEnd(out) ==> LocalShut(s'))
    ensures Trails(s')
  {
    assert s'.sent[|s'.sent| - |s'.flying|..] == s.sent[|s.sent| - |s.flying|..] + out;
    if i :| 0 <= i < |s'.sent| && s'.sent[i].Data? && s'.sent[i].endStream {
      if i < |s.sent| {
        assert s.sent[i].endStream;
      } else {
        assert out[i - |s.sent|].endStream;
      }
    }
  }

  lemma TakenTrails(s: Side, s': Side)
    requires Trails(s) && s.flying != [] && s' == s.(flying := s.flying[1..])
    ensures Trails(s')
  {
    assert s'.sent[|s'.sent| - |s'.flying|..] == s.sent[|s.sent| - |s.flying|..][1..];
  }

  lemma NoEnd(out: seq<Packet>)
    requires forall i :: 0 <= i < |out| ==> out[i].Data? ==> !out[i].endStream
    ensures !HasEnd(out)
  {
  }

  lemma ActTrails(p: Pair, op: Op)
    requires Trails(p.x) && Trails(p.y)
    ensures Trails(Act(p, op).x) && Trails(Act(p, op).y)
  {
    var q := Act(p, op);
    assert p.x.flying + [] == p.x.flying && p.x.sent + [] == p.x.sent;
    hide Trails, Segments, Countable, Full, AfterRead, ReadOutcome, Enqueued;
    match op
    case DoWrite(data, endStream) =>
      SegmentsCarry(data, endStream);
      if CanSend(p.x) {
        if !endStream {
          NoEnd(Segments(data, endStream));
        }
        SentTrails(p.x, q.x, Segments(data, endStream));
      }
    case DoClose => SentTrails(p.x, q.x, CloseCall(p.x.ep).out);
    case DoReset(code) =>
      NoEnd(ResetCall(p.x.ep, code).out);
      SentTrails(p.x, q.x, ResetCall(p.x.ep, code).out);
    case DoRead(n) =>
      ReadStays(p.x.ep, n);
      SentTrails(p.x, q.x, []);
    case Deliver =>
      if p.y.flying != [] && !Full(p.x.ep, p.y.flying[0]) {
        var r := Handle(p.x.ep, p.y.flying[0]);
        NoEnd(r.out);
        SentTrails(p.x, q.x, r.out);
        TakenTrails(p.y, q.y);
      }
  }

  lemma ReadStays(e: Endpoint, n: nat)
    ensures AfterRead(e, n).state == e.state
  {
  }

  lemma {:induction false} RunTrails(p: Pair, steps: seq<Step>)
    requires Trails(p.x) && Trails(p.y)
    ensures Trails(Run(p, steps).x) && Trails(Run(p, steps).y)
    decreases |steps|
  {
    hide Trails, Act;
    if steps != [] {
      ActTrails(if steps[0].left then p else Swap(p), steps[0].op);
      RunTrails(Next(p, steps[0]), steps[1..]);
    }
  }

  lemma StartTrails()
    ensures Trails(Start.x) && Trails(Start.y)
  {
  }

  /** Where the one packet of a unary response is: not sent, in flight, or delivered with its end. */
  lemma UnaryWhere(p: Pair, m: Packet)
    requires Calm(p) && Track(p.x, p.y) && Trails(p.x) && (p.x.sent == [] || p.x.sent == [m])
    requires m.Data? && m.endStream && m.payload != []
    ensures p.y.taken == if p.y.ended then [m.payload] else []
    ensures p.y.ended ==> p.x.flying == []
  {
    CalmFacts(p);
    var sent, flying := p.x.sent, p.x.flying;
    assert BlocksOf([m]) == [m.payload] by { assert [m][1..] == []; }
    NoBlocks();
    if sent == [] {
      assert flying == [];
      assert p.y.taken == [];
      assert !HasEnd(sent);
    } else if p.y.ended {
      assert p.y.taken + [] == p.y.taken;
    } else {
      assert HasEnd(sent) by { assert sent[0].endStream; }
      ShutIsFlying(p);
      assert flying == [m];
    }
  }

  lemma ShutIsFlying(p: Pair)
    requires Calm(p) && LocalShut(p.x) && !p.y.ended
    ensures p.x.flying != []
  {
    hide Flow, Tidy;
  }

  /** What the client can read of it. */
  lemma UnaryArrived(p: Pair, resp: Message<Value>, known: set<bytes>)
    requires Calm(p) && Track(p.x, p.y) && p.y.taken == if p.y.ended then [Wrap(resp)] else []
    ensures Incoming(p.y.ep, p.y.taken, |p.y.read|, known)
      == FromBlocks(p.y.taken, if p.y.ended then ClosedStream else WouldBlock, known)
  {
    CalmFacts(p);
    hide Calm, Track, Wrap;
  }

  lemma UnaryRead(client: Ctx, resp: Message<Value>, tail: Error, known: set<bytes>)
    requires resp.Response? && !resp.streaming && Good(resp, known) && CountsFit(resp) && client.err.None?
    ensures var r := TakeResponse(client, FromBlocks([Wrap(resp)], tail, known), 0);
      && r.result == Answered(NormMessage(resp)) && r.pos == |Wrap(resp)|
      && r.ctx == client.(hasRecv := false, meta := resp.meta)
  {
    assert NormMessage(resp).streaming == false && NormMessage(resp).meta == resp.meta && Kind(resp) == 2;
    hide Good, Wrap, NormMessage, ReadExpected, CountsFit, Kind, Laid, AllPieces, Wraps;
    var inp := FromBlocks([Wrap(resp)], tail, known);
    WrapsOne(resp);
    MessagesLaid([resp], tail, known);
    assert [resp] == [resp] + [];
    HeadMessage(resp, [], inp, 0);
  }

  lemma NothingYet(client: Ctx, known: set<bytes>)
    requires client.err.None?
    ensures TakeResponse(client, FromBlocks([], WouldBlock, known), 0) == Received(Waiting, client, 0)
  {
    var inp := FromBlocks([], WouldBlock, known);
    assert inp.data == [];
    Sessions.NothingExpected(inp);
    hide ReadExpected;
  }

  /**
   * The unary call, in every run of the two ends without resets in which the server's end sends, at most,
   * its response: as long as the response has not been delivered the client's ReadResponse waits; once it
   * has, it returns the response; Recv has then no stream to receive from, and a Read finds the stream
   * closed as soon as the response has been read, with reads of whatever sizes.
   */
  lemma UnaryCall(steps: seq<Step>, server: Ctx, client: Ctx, resp: Message<Value>, known: set<bytes>, sizes: seq<nat>, n: nat)
    requires resp.Response? && !resp.streaming && AllSupported(resp.params) && Fits(resp) && Good(resp, known) && CountsFit(resp)
    requires (forall s :: s in steps ==> Gentle(s)) && client.err.None? && n > 0
    requires var p := Run(Start, steps);
      (p.x.sent == [] || p.x.sent == SendResponse(server, NewEndpoint, resp).out) && p.y.read == []
    ensures var p := Run(Start, steps);
      var inp := Incoming(p.y.ep, p.y.taken, 0, known);
      var r := TakeResponse(client, inp, 0);
      && (!p.y.ended ==> r.result == Waiting)
      && (p.y.ended ==>
            && r.result == Answered(NormMessage(resp)) && r.pos == |Wrap(resp)| <= |inp.data|
            && Recv(r.ctx, inp, r.pos).result == Failed(NoStream))
    ensures var p := Run(Start, steps);
      var q := Run(p, Sessions.Reading(sizes));
      p.y.ended && |q.y.read| == |Wrap(resp)| ==> ReadOutcome(q.y.ep, n) == Fail(ClosedStream)
  {
    hide Run, Good, CountsFit, Wrap, SendResponse, Incoming, TakeResponse, Recv, FromBlocks, Calm, Track, Trails, NormMessage, ReadOutcome,
      AllSupported, Sessions.Reading;
    var p := Run(Start, steps);
    NewCanSend();
    UnaryEnds(server, NewEndpoint, resp);
    WrapNonEmpty(resp);
    StartCalm();
    StartTracked();
    TrackRun(Start, steps);
    StartTrails();
    RunTrails(Start, steps);
    UnaryWhere(p, Data(Wrap(resp), true, true));
    UnaryArrived(p, resp, known);
    if p.y.ended {
      UnaryRead(client, resp, ClosedStream, known);
      OneBlock(Wrap(resp), ClosedStream, known);
      NoStreamFor(client, resp, Incoming(p.y.ep, p.y.taken, 0, known), |Wrap(resp)|);
      Sessions.ReadingRuns(p, sizes);
      var q := Run(p, Sessions.Reading(sizes));
      if |q.y.read| == |Wrap(resp)| {
        UnaryOver(p, q, Wrap(resp), n);
      }
    } else {
      NothingYet(client, known);
    }
  }

  lemma WrapNonEmpty(m: Message<Value>)
    ensures Wrap(m) != []
  {
    WrapBytes(m);
  }

  lemma OneBlock(b: bytes, tail: Error, known: set<bytes>)
    ensures FromBlocks([b], tail, known).data == b
  {
    FlatOne(b);
  }

  lemma NoStreamFor(client: Ctx, resp: Message<Value>, inp: Input, pos: nat)
    requires resp.Response? && pos <= |inp.data|
    ensures Recv(client.(hasRecv := false, meta := resp.meta), inp, pos).result == Failed(NoStream)
  {
    hide ReadMessage;
  }

  /** All that was written is what is held; so once as much has been read, nothing is. */
  lemma UnaryOver(p: Pair, q: Pair, body: bytes, n: nat)
    requires Calm(p) && Track(p.x, p.y) && p.y.ended && p.y.read == [] && p.y.taken == [body] && n > 0
    requires Calm(q) && q.x == p.x && q.y.ended && |q.y.read| == |body|
    ensures ReadOutcome(q.y.ep, n) == Fail(ClosedStream)
  {
    PairLaws.Waiting(p);
    PairLaws.Waiting(q);
    AllHeld(p);
    FlatOne(body);
    CalmFacts(q);
    CalmReader(q);
    TakeConserves(q.y.ep.reader, n);
    hide Calm, Track, Held, TakeOutcome, Take, Flat;
  }

  lemma AllHeld(p: Pair)
    requires Track(p.x, p.y) && p.y.read == []
    ensures Held(p.y.ep.reader) == Flat(p.y.taken)
  {
    var q, taken := p.y.ep.reader, p.y.taken;
    DropNone(taken);
    hide BlocksOf, Drop, Marks;
    if q.buf != [] {
      assert taken[0] == q.buf && taken[1..] == q.blocks;
    } else {
      assert q.blocks == taken;
    }
  }

  /** Such a run: the response is written, and delivered. */
  lemma UnaryRuns(server: Ctx, resp: Message<Value>)
    requires resp.Response? && !resp.streaming && AllSupported(resp.params) && Fits(resp)
    ensures var steps := [Step(true, DoWrite(Wrap(resp), true)), Step(false, Deliver)];
      var p := Run(Start, steps);
      && (forall s :: s in steps ==> Gentle(s))
      && p.x.sent == SendResponse(server, NewEndpoint, resp).out && p.y.ended && p.y.read == []
  {
    NewCanSend();
    UnaryEnds(server, NewEndpoint, resp);
    WrapNonEmpty(resp);
    hide Wrap, SendResponse, AllSupported;
    var a, b := Step(true, DoWrite(Wrap(resp), true)), Step(false, Deliver);
    var p1 := Next(Start, a);
    assert p1.x.flying == [Data(Wrap(resp), true, true)] && p1.x.sent == [Data(Wrap(resp), true, true)];
    var p2 := Next(p1, b);
    assert Run(Start, [a, b]) == p2 by {
      assert [a, b][1..] == [b] && [b][1..] == [];
      assert Run(p1, [b]) == Run(p2, []);
    }
  }
}
