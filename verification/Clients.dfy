/** How a client numbers its streams (wire/client.go:96-117), and what the server makes of the numbers. */
module Clients {
  import opened Base
  import opened Streams
  import opened Frames
  import opened Connections
  import opened Handshake
  import Farewells

  /** The ids that `n` calls of NewStream take after `last`: uint32 arithmetic. */
  function Allocated(last: nat, n: nat): (ids: seq<nat>)
    requires last < TWO_32
    ensures |ids| == n
    decreases n
  {
    if n == 0 then [] else [(last + 1) % TWO_32] + Allocated((last + 1) % TWO_32, n - 1)
  }

  class Client {
    var lastStreamID: nat
    var streams: map<nat, Endpoint>
    var written: seq<Typed>
    var failed: bool

    predicate Valid()
      reads this
    {
      lastStreamID < TWO_32
    }

    constructor ()
      ensures Valid() && lastStreamID == 0 && streams == map[] && written == [] && !failed
    {
      lastStreamID, streams, written, failed := 0, map[], [], false;
    }

    /** `ok` is what the write of the frame answers; the id is spent either way. */
    method NewStream(ok: bool) returns (r: Option<nat>)
      requires Valid()
      modifies this
      ensures Valid() && failed == old(failed)
      ensures old(failed) ==> r == None && lastStreamID == old(lastStreamID) && streams == old(streams) && written == old(written)
      ensures !old(failed) ==>
        && var id := Allocated(old(lastStreamID), 1)[0];
        && lastStreamID == id
        && r == (if ok then Some(id) else None)
        && written == old(written) + (if ok then [MakeStream(id)] else [])
        && streams == if ok then old(streams)[id := NewEndpoint] else old(streams)
    {
      if failed {
        return None;
      }
      var id := (lastStreamID + 1) % TWO_32;
      lastStreamID := (lastStreamID + 1) % TWO_32;
      if !ok {
        return None;
      }
      written := written + [MakeStream(id)];
      streams := streams[id := NewEndpoint];
      return Some(id);
    }
  }

  lemma {:induction false} AllocatedAt(last: nat, n: nat, i: nat)
    requires last < TWO_32 && i < n
    ensures Allocated(last, n)[i] == (last + 1 + i) % TWO_32
    decreases n
  {
    if i > 0 {
      var l := (last + 1) % TWO_32;
      AllocatedAt(l, n - 1, i - 1);
      ModSum(last + 1, i, TWO_32);
    }
  }

  /** A client hands out 1, 2, 3, ...; the ids are distinct and none is zero for exactly fewer than 2^32 streams. */
  lemma FreshIds(n: nat)
    ensures forall i :: 0 <= i < n && i + 1 < TWO_32 ==> Allocated(0, n)[i] == i + 1
    ensures Distinct(Allocated(0, n)) && 0 !in Allocated(0, n) <==> n < TWO_32
  {
    var ids := Allocated(0, n);
    forall i | 0 <= i < n && i + 1 < TWO_32
      ensures ids[i] == i + 1
    {
      AllocatedAt(0, n, i);
    }
    if n >= TWO_32 {
      AllocatedAt(0, n, TWO_32 - 1);
      assert ids[TWO_32 - 1] == 0;
    }
  }

  function Made(id: nat): Frame { IntoFrame(MakeStream(id)) }

  function MadeAll(ids: seq<nat>): (r: seq<Frame>)
    ensures |r| == |ids|
  {
    seq(|ids|, i requires 0 <= i < |ids| => Made(ids[i]))
  }

  /** The client's HELLO (wire/client.go:64-70). */
  function Greeting(): Frame { IntoFrame(Hello(false, false, 0)) }

  lemma {:induction false} MadeIds(f: Frame, ids: seq<nat>)
    requires f.kind == HELLO
    ensures MakeIds([f] + MadeAll(ids)) == ids
    decreases |ids|
  {
    var fs := [f] + MadeAll(ids);
    var n := |ids|;
    if n == 0 {
      assert fs == [f] && [f][..0] == [];
    } else {
      assert fs[..n] == [f] + MadeAll(ids[..n - 1]);
      MadeIds(f, ids[..n - 1]);
      assert ids == ids[..n - 1] + [ids[n - 1]];
    }
  }

  lemma MadeConforms(ids: seq<nat>)
    requires Distinct(ids) && 0 !in ids
    ensures Conforming([Greeting()] + MadeAll(ids))
  {
    GreetingAccepted();
    hide Greeting;
    var fs := [Greeting()] + MadeAll(ids);
    forall i | 0 < i < |fs|
      ensures Accepts(fs[i]) && fs[i].kind == MAKE_STREAM && fs[i].streamID == ids[i - 1]
    {
      assert fs[i] == Made(ids[i - 1]);
      assert ids[i - 1] in ids;
    }
    assert fs[0] == Greeting();
  }

  lemma GreetingAccepted()
    ensures Accepts(Greeting()) && Greeting().kind == HELLO
  {
    TypedRoundTrip(Hello(false, false, 0));
  }

  /**
   * Whatever the interleaving, a server that has been sent a client's HELLO and the frames of fewer
   * than 2^32 streams has no objection, and has registered exactly the ids allocated.
   */
  lemma FreshAcrossPeers(n: nat, steps: seq<Step>)
    requires n < TWO_32
    requires Run(NewConn, steps).dispatched == [Greeting()] + MadeAll(Allocated(0, n))
    ensures var c := Run(NewConn, steps);
      && !c.violated && c.terminateAfter == None
      && c.serviced == Allocated(0, n) && (forall id :: id in c.streams <==> 1 <= id <= n)
  {
    hide Run, Accepts, Conforming, IntoFrame;
    var ids := Allocated(0, n);
    FreshIds(n);
    MadeConforms(ids);
    GreetingAccepted();
    MadeIds(Greeting(), ids);
    ExactlyTheRules(steps);
    HandshakeHolds(steps);
    var c := Run(NewConn, steps);
    forall id: nat
      ensures id in c.streams <==> 1 <= id <= n
    {
      if 1 <= id <= n {
        assert ids[id - 1] == id;
      }
    }
  }

  /** Callers may race between taking an id and writing its frame: in any order of the ids it is the same. */
  lemma AnyOrder(n: nat, order: seq<nat>, steps: seq<Step>)
    requires n < TWO_32 && Distinct(order) && (forall id :: id in order ==> id in Allocated(0, n))
    requires Run(NewConn, steps).dispatched == [Greeting()] + MadeAll(order)
    ensures var c := Run(NewConn, steps);
      !c.violated && c.terminateAfter == None && c.serviced == order
  {
    hide Run, Accepts, Conforming, IntoFrame;
    FreshIds(n);
    assert 0 !in order;
    MadeConforms(order);
    GreetingAccepted();
    MadeIds(Greeting(), order);
    ExactlyTheRules(steps);
  }

  // Such a run exists.

  function FeedIds(ids: seq<nat>): seq<Step> {
    if ids == [] then [] else [Receive(Made(ids[0])), DoDispatch] + FeedIds(ids[1..])
  }

  function Feed(ids: seq<nat>): seq<Step> {
    [Receive(Greeting()), DoDispatch] + ([Get(0), Push, DoEmit] + ([DoCheck] + FeedIds(ids)))
  }

  predicate Settled(c: Conn) {
    c.reader == Ready(Loop) && c.running && !c.panicked && c.configured
  }

  lemma FeedOne(c: Conn, id: nat)
    requires Settled(c) && id !in c.streams && 0 < id < TWO_32
    ensures Enabled(c, Receive(Made(id))) && Enabled(After(c, Receive(Made(id))), DoDispatch)
    ensures var d := After(After(c, Receive(Made(id))), DoDispatch);
      Settled(d) && d.dispatched == c.dispatched + [Made(id)] && d.streams.Keys == c.streams.Keys + {id}
  {
    assert FromFrame(MAKE_STREAM, Made(id)) == Parsed(MakeStream(id));
    hide FromFrame;
    var d := After(After(c, Receive(Made(id))), DoDispatch);
    assert d.streams == c.streams[id := NewLine];
  }

  lemma {:induction false} FeedRuns(c: Conn, ids: seq<nat>)
    requires Settled(c) && Distinct(ids) && (forall id :: id in ids ==> 0 < id < TWO_32 && id !in c.streams)
    ensures Run(c, FeedIds(ids)).dispatched == c.dispatched + MadeAll(ids)
    decreases |ids|
  {
    hide After, Enabled, Settled, Run, Made;
    if ids == [] {
      RunNone(c);
    } else {
      var id, rest := ids[0], ids[1..];
      FeedOne(c, id);
      var d := After(After(c, Receive(Made(id))), DoDispatch);
      RunTwo(c, Receive(Made(id)), DoDispatch, FeedIds(rest));
      forall x | x in rest
        ensures 0 < x < TWO_32 && x !in d.streams
      {
        assert x in ids && x != id;
      }
      FeedRuns(d, rest);
      assert MadeAll(ids) == [Made(id)] + MadeAll(rest);
    }
  }

  function Welcomed(): Conn {
    NewConn.(configured := true, made := 1, slots := map[0 := 0], wire := [Hello(true, false, 0)], packed := [false], dispatched := [Greeting()])
  }

  lemma GreetingParses()
    ensures var g := Greeting();
      Measured(g) && Carriable(g) && g.kind == HELLO && FromFrame(HELLO, g) == Parsed(Hello(false, false, 0))
  {
    TypedRoundTrip(Hello(false, false, 0));
    hide FromFrame;
  }

  lemma Greeted()
    ensures var g := Greeting();
      && Enabled(NewConn, Receive(g)) && Enabled(After(NewConn, Receive(g)), DoDispatch)
      && After(After(NewConn, Receive(g)), DoDispatch) == Answering()
  {
    GreetingParses();
    hide FromFrame, Greeting, Measured, Carriable, CancelOne, Emit, Check, ToStream, Leave;
    var g := Greeting();
    var c := After(NewConn, Receive(g));
    assert c == NewConn.(reader := Holding(g));
    assert Dispatch(c, g) == Process(c.(dispatched := [g]), Hello(false, false, 0));
  }

  function Answering(): Conn {
    NewConn.(configured := true, made := 1, dispatched := [Greeting()],
             reader := Sending(Out(0, Hello(true, false, 0)), Loop, true))
  }

  lemma Welcome(rest: seq<Step>)
    ensures Run(NewConn, [Receive(Greeting()), DoDispatch] + ([Get(0), Push, DoEmit] + ([DoCheck] + rest))) == Run(Welcomed(), rest)
  {
    hide Greeting, Run, After, Enabled;
    var g, c := Greeting(), Answering();
    Greeted();
    RunTwo(NewConn, Receive(g), DoDispatch, [Get(0), Push, DoEmit] + ([DoCheck] + rest));
    Farewells.Written(c, 0, [DoCheck] + rest);
    Farewells.CheckOne(Farewells.WrittenOut(c, 0), rest);
    assert Check(Farewells.WrittenOut(c, 0)) == Welcomed();
  }

  /** A client's HELLO and its streams' frames, fed in order, reach the server's dispatch. */
  lemma FreshRunExists(n: nat)
    requires n < TWO_32
    ensures Run(NewConn, Feed(Allocated(0, n))).dispatched == [Greeting()] + MadeAll(Allocated(0, n))
  {
    hide Run, Greeting, MadeAll;
    var ids := Allocated(0, n);
    FreshIds(n);
    Welcome(FeedIds(ids));
    FeedRuns(Welcomed(), ids);
  }
}
