/** Who is told what: the answers to calls and deliveries in every state, and the code that a reset leaves behind. */
module Resets {
  import opened Base
  import opened Readers
  import opened Blocks
  import opened Streams
  import opened Pair
  import opened PairLaws

  // The guards, state by state.

  /** A stream that is locally shut, or was reset, sends nothing more and says why. */
  lemma CallsAnswer(e: Endpoint, data: bytes, endStream: bool, code: nat)
    ensures var refusal := if e.state.err.Some? then e.state.err
        else if e.state.code == HalfLocal || e.state.code == Closed then Some(ClosedStream) else None;
      && WriteCall(e, data, endStream).err == CloseCall(e).err == ResetCall(e, code).err == refusal
      && (refusal.Some? ==>
            && WriteCall(e, data, endStream) == Reply(e, [], refusal)
            && CloseCall(e) == Reply(e, [], refusal) && ResetCall(e, code) == Reply(e, [], refusal))
    ensures var w, l, r := WriteCall(e, data, endStream), CloseCall(e), ResetCall(e, code);
      w.err.None? ==>
        && (if endStream then w.ep.state.code == (if e.state.code == Open then HalfLocal else Closed) else w.ep == e)
        && l.ep.state.code == (if e.state.code == Open then HalfLocal else Closed) && l.out == [Data([], true, true)]
        && r.ep.state == State(Closed, None) && r.ep.reader.closed && r.out == [Packet.Reset(code)]
        && w.ep.reader == l.ep.reader == e.reader && r.ep.reader == e.reader.(closed := true)
  {
    hide Segments;
  }

  /** What a delivery does to the end that it reaches, and what that end answers. */
  lemma DeliveryAnswers(p: Pair)
    requires p.y.flying != [] && !Full(p.x.ep, p.y.flying[0])
    ensures var x, q := p.x, Act(p, Deliver).x;
      var s := x.ep.state;
      match p.y.flying[0]
      case Reset(code) =>
        if s.err.Some? || s.code == Closed then q.ep == x.ep && q.sent == x.sent + [Packet.Reset(3)]
        else q.sent == x.sent && q.ep == Endpoint(State(Closed, Some(StreamReset(code))), x.ep.reader.(closed := true))
      case Data(payload, _, endStream) =>
        if s.err.Some? || s.code == Closed || s.code == HalfRemote then q.ep == x.ep && q.sent == x.sent + [Packet.Reset(3)]
        else
          && q.sent == x.sent && q.ep.reader == Enqueued(x.ep.reader, payload) && q.ep.state.err == s.err
          && q.ep.state.code == if !endStream then s.code else if s.code == Open then HalfRemote else Closed
  {
    assert p.x.sent + [] == p.x.sent;
    hide Full, Enqueued;
  }

  // The code of a reset.

  /** The codes of the resets among the packets. */
  function Codes(ps: seq<Packet>): seq<nat> {
    if ps == [] then [] else (if ps[0].Reset? then [ps[0].code] else []) + Codes(ps[1..])
  }

  lemma {:induction false} CodesConcat(a: seq<Packet>, b: seq<Packet>)
    ensures Codes(a + b) == Codes(a) + Codes(b)
  {
    if a == [] {
      assert a + b == b;
    } else {
      assert (a + b)[1..] == a[1..] + b && (a + b)[0] == a[0];
      CodesConcat(a[1..], b);
    }
  }

  /** As long as `r` is not closed no reset has reached it; an error is the first reset that `s` sent. */
  ghost predicate Coded(s: Side, r: Side) {
    && (r.ep.state.code != Closed ==> Codes(s.sent) == Codes(s.flying))
    && (r.ep.state.err.Some? ==> Codes(s.sent) != [] && r.ep.state.err == Some(StreamReset(Codes(s.sent)[0])))
  }

  lemma SenderCoded(s: Side, r: Side, s': Side, out: seq<Packet>)
    requires Coded(s, r) && s'.sent == s.sent + out && s'.flying == s.flying + out
    ensures Coded(s', r)
  {
    hide Codes;
    CodesConcat(s.sent, out);
    CodesConcat(s.flying, out);
  }

  lemma ReceiverCoded(s: Side, r: Side, r': Side)
    requires Coded(s, r) && r'.ep.state.err == r.ep.state.err && (r.ep.state.code == Closed ==> r'.ep.state.code == Closed)
    ensures Coded(s, r')
  {
    hide Codes;
  }

  lemma DeliverCoded(p: Pair)
    requires Inv(p) && Coded(p.x, p.y) && Coded(p.y, p.x) && p.y.flying != [] && !Full(p.x.ep, p.y.flying[0])
    ensures var q := Act(p, Deliver); Coded(q.x, q.y) && Coded(q.y, q.x)
  {
    var q, m := Act(p, Deliver), p.y.flying[0];
    DeliveryAnswers(p);
    assert q.y == p.y.(flying := p.y.flying[1..]) && q.x.sent == p.x.sent + Handle(p.x.ep, m).out
      && q.x.flying == p.x.flying + Handle(p.x.ep, m).out;
    assert Codes(p.y.flying) == (if m.Reset? then [m.code] else []) + Codes(q.y.flying);
    hide Act, Codes, Flow, Handle, Enqueued, Full;
    SenderCoded(p.x, p.y, q.x, Handle(p.x.ep, m).out);
    ReceiverCoded(q.x, p.y, q.y);
  }

  lemma ActCoded(p: Pair, op: Op)
    requires Inv(p) && Coded(p.x, p.y) && Coded(p.y, p.x)
    ensures var q := Act(p, op); Coded(q.x, q.y) && Coded(q.y, q.x)
  {
    var q := Act(p, op);
    assert p.x.flying + [] == p.x.flying && p.x.sent + [] == p.x.sent;
    hide Coded, Inv, Segments, Countable, Full, AfterRead, ReadOutcome, Handle;
    match op
    case DoWrite(data, endStream) =>
      SenderCoded(p.x, p.y, q.x, if CanSend(p.x) then Segments(data, endStream) else []);
      ReceiverCoded(p.y, p.x, q.x);
    case DoClose =>
      SenderCoded(p.x, p.y, q.x, CloseCall(p.x.ep).out);
      ReceiverCoded(p.y, p.x, q.x);
    case DoReset(code) =>
      SenderCoded(p.x, p.y, q.x, ResetCall(p.x.ep, code).out);
      ReceiverCoded(p.y, p.x, q.x);
    case DoRead(n) =>
      ReadState(p.x.ep, n);
      SenderCoded(p.x, p.y, q.x, []);
      ReceiverCoded(p.y, p.x, q.x);
    case Deliver =>
      if p.y.flying != [] && !Full(p.x.ep, p.y.flying[0]) {
        DeliverCoded(p);
      }
  }

  lemma ReadState(e: Endpoint, n: nat)
    ensures AfterRead(e, n).state == e.state
  {
  }

  lemma {:induction false} RunCoded(p: Pair, steps: seq<Step>)
    requires Inv(p) && Coded(p.x, p.y) && Coded(p.y, p.x)
    ensures var q := Run(p, steps); Inv(q) && Coded(q.x, q.y) && Coded(q.y, q.x)
    decreases |steps|
  {
    hide Inv, Coded, Act;
    if steps != [] {
      var s := steps[0];
      SwapInv(p);
      ActCoded(if s.left then p else Swap(p), s.op);
      NextKeeps(p, s);
      RunCoded(Next(p, s), steps[1..]);
    }
  }

  /** In every run an end's error is the code of the first RESET_STREAM that the other end ever sent. */
  lemma ErrorIsTheFirstReset(steps: seq<Step>)
    ensures var p := Run(Start, steps);
      && (p.y.ep.state.err.Some? ==> Codes(p.x.sent) != [] && p.y.ep.state.err == Some(StreamReset(Codes(p.x.sent)[0])))
      && (p.x.ep.state.err.Some? ==> Codes(p.y.sent) != [] && p.x.ep.state.err == Some(StreamReset(Codes(p.y.sent)[0])))
  {
    hide Run, Inv, Codes;
    StartSound();
    StartCoded();
    RunCoded(Start, steps);
  }

  lemma StartCoded()
    ensures Coded(Start.x, Start.y) && Coded(Start.y, Start.x)
  {
  }

  lemma SentGrows(p: Pair, op: Op)
    ensures p.x.sent <= Act(p, op).x.sent && p.y.sent <= Act(p, op).y.sent
  {
    hide Segments, Countable, Full, AfterRead, ReadOutcome, Handle;
  }

  lemma {:induction false} RunSends(p: Pair, steps: seq<Step>)
    ensures p.x.sent <= Run(p, steps).x.sent
    decreases |steps|
  {
    hide Act;
    if steps != [] {
      SentGrows(if steps[0].left then p else Swap(p), steps[0].op);
      RunSends(Next(p, steps[0]), steps[1..]);
    }
  }

  lemma {:induction false} FirstStays(a: seq<Packet>, b: seq<Packet>)
    requires a <= b && Codes(a) != []
    ensures Codes(b) != [] && Codes(b)[0] == Codes(a)[0]
  {
    assert b == a + b[|a|..];
    CodesConcat(a, b[|a|..]);
  }

  /**
   * A Reset that is granted, with no RESET_STREAM sent before it, gives the other end that very code as
   * its error, if any: whatever happened before and whatever happens after.
   */
  lemma ResetCodeArrives(before: seq<Step>, code: nat, after: seq<Step>)
    requires var p := Run(Start, before); CanSend(p.x) && Codes(p.x.sent) == []
    ensures var q := Run(Next(Run(Start, before), Step(true, DoReset(code))), after);
      q.y.ep.state.err.Some? ==> q.y.ep.state.err == Some(StreamReset(code))
  {
    var p := Run(Start, before);
    var w := Next(p, Step(true, DoReset(code)));
    assert w.x.sent == p.x.sent + [Packet.Reset(code)];
    CodesConcat(p.x.sent, [Packet.Reset(code)]);
    assert Codes([Packet.Reset(code)]) == [code] by { assert [Packet.Reset(code)][1..] == []; }
    StartSound();
    StartCoded();
    RunCoded(Start, before);
    SwapInv(p);
    ActCoded(p, DoReset(code));
    NextKeeps(p, Step(true, DoReset(code)));
    hide Run, Inv, Codes, Next;
    RunCoded(w, after);
    RunSends(w, after);
    FirstStays(w.x.sent, Run(w, after).x.sent);
  }

  /** Once an end has an error it keeps it, and Read, Write, CloseLocal and Reset all return it and send nothing. */
  lemma ErrorIsFinal(steps: seq<Step>, more: seq<Step>, data: bytes, endStream: bool, code: nat, n: nat)
    requires Run(Start, steps).y.ep.state.err.Some?
    ensures var p := Run(Start, steps);
      var e, err := Run(p, more).y.ep, p.y.ep.state.err;
      && ReadOutcome(e, n) == Fail(err.value)
      && WriteCall(e, data, endStream) == Reply(e, [], err)
      && CloseCall(e) == Reply(e, [], err) && ResetCall(e, code) == Reply(e, [], err)
  {
    StartSound();
    RunKeeps(Start, steps);
    var p := Run(Start, steps);
    Lifecycle(p, more);
    CallsAnswer(Run(p, more).y.ep, data, endStream, code);
    hide Run, Inv, WriteCall, CloseCall, ResetCall, TakeOutcome;
  }
}
