/**
 * Two endpoints of one stream joined by lossless FIFO queues of packets, every call and every
 * delivery one atomic step, and what holds in every interleaving of them.
 */
module Pair {
  import opened Base
  import opened Readers
  import opened Blocks
  import opened Streams

  /**
   * One endpoint, the packets it has sent that are still in flight, and its history: the packets it
   * ever sent, the bytes its Writes accepted, those of them that count (a Write that ends the stream
   * counts up to its first segment), the blocks it accepted, the bytes its Reads returned, whether it
   * was told the stream ended, and how many Resets it was granted.
   */
  datatype Side = Side(ep: Endpoint, flying: seq<Packet>, sent: seq<Packet>, written: bytes, due: bytes,
                       taken: seq<bytes>, read: bytes, ended: bool, resets: nat)

  datatype Pair = Pair(x: Side, y: Side)

  datatype Op = DoWrite(data: bytes, endStream: bool) | DoClose | DoReset(code: nat) | DoRead(n: nat) | Deliver

  /** Who acts, and what it does: `left` is `x`. */
  datatype Step = Step(left: bool, op: Op)

  const NewSide: Side := Side(NewEndpoint, [], [], [], [], [], [], false, 0)
  const Start: Pair := Pair(NewSide, NewSide)

  function Swap(p: Pair): Pair { Pair(p.y, p.x) }

  function Emit(s: Side, r: Reply): Side {
    s.(ep := r.ep, flying := s.flying + r.out, sent := s.sent + r.out)
  }

  function Countable(data: bytes, endStream: bool): bytes {
    if endStream then data[..Min(|data|, MAX_PAYLOAD)] else data
  }

  function Act(p: Pair, op: Op): Pair {
    var x := p.x;
    match op
    case DoWrite(data, endStream) =>
      var r := WriteCall(x.ep, data, endStream);
      if r.err.Some? then p
      else p.(x := Emit(x, r).(written := x.written + data, due := x.due + Countable(data, endStream)))
    case DoClose => p.(x := Emit(x, CloseCall(x.ep)))
    case DoReset(code) =>
      var r := ResetCall(x.ep, code);
      p.(x := Emit(x, r).(resets := x.resets + (if r.err.None? then 1 else 0)))
    case DoRead(n) =>
      var o := ReadOutcome(x.ep, n);
      p.(x := x.(ep := AfterRead(x.ep, n), read := x.read + (if o.Got? then o.bs else [])))
    case Deliver =>
      if p.y.flying == [] || Full(x.ep, p.y.flying[0]) then p
      else
        var m := p.y.flying[0];
        var fits := m.Data? && x.ep.state.RecvData().None?;
        var x' := x.(ended := x.ended || (fits && m.endStream),
                     taken := x.taken + (if fits && m.payload != [] then [m.payload] else []));
        Pair(Emit(x', Handle(x.ep, m)), p.y.(flying := p.y.flying[1..]))
  }

  function Next(p: Pair, s: Step): Pair {
    if s.left then Act(p, s.op) else Swap(Act(Swap(p), s.op))
  }

  function Run(p: Pair, steps: seq<Step>): Pair
    decreases |steps|
  {
    if steps == [] then p else Run(Next(p, steps[0]), steps[1..])
  }

  // One direction.

  /** What has been accepted for reading at `r`, read or not. */
  function Accepted(r: Side): bytes { r.read + Held(r.ep.reader) }

  predicate Live(r: Side) { r.ep.state.RecvData().None? }

  predicate CanSend(s: Side) { s.ep.state.Send().None? }

  /** The payload that a live receiver of these packets will accept: up to a reset or an end of stream. */
  function Coming(ps: seq<Packet>): bytes {
    if ps == [] || ps[0].Reset? then []
    else if ps[0].endStream then ps[0].payload
    else ps[0].payload + Coming(ps[1..])
  }

  /** Reading the packets in order meets a reset first, an end of stream first, or neither. */
  datatype Stop = ResetFirst | EndFirst | Neither

  function StopOf(ps: seq<Packet>): Stop {
    if ps == [] then Neither
    else if ps[0].Reset? then ResetFirst
    else if ps[0].endStream then EndFirst
    else StopOf(ps[1..])
  }

  /** Some packet ends the stream. */
  predicate HasEnd(ps: seq<Packet>) {
    exists i :: 0 <= i < |ps| && ps[i].Data? && ps[i].endStream
  }

  lemma {:induction false} EndFirstHasEnd(ps: seq<Packet>)
    requires StopOf(ps).EndFirst?
    ensures HasEnd(ps)
  {
    if !ps[0].endStream {
      EndFirstHasEnd(ps[1..]);
      var i :| 0 <= i < |ps[1..]| && ps[1..][i].Data? && ps[1..][i].endStream;
      assert ps[i + 1].endStream;
    }
  }

  ghost predicate Sound(s: Side) {
    var e := s.ep;
    && NonEmpty(e.reader.blocks)
    && (e.state.err.Some? ==> e.state.code.Closed? && e.reader.closed)
    && (e.reader.closed ==> e.state.code.Closed?)
    && s.resets <= 1 && (s.resets == 1 ==> e.state.code.Closed?)
  }

  /** The invariant of the direction from `s` to `r`. */
  ghost predicate Flow(s: Side, r: Side) {
    && s.due <= s.written && (CanSend(s) ==> s.due == s.written)
    && Accepted(r) <= s.due
    && (HasEnd(s.flying) ==> !CanSend(s))
    && (Live(r) ==> Accepted(r) + Coming(s.flying) <= s.due)
    && (Live(r) && !StopOf(s.flying).ResetFirst? ==> Accepted(r) + Coming(s.flying) == s.due)
    && (r.ended ==> Accepted(r) == s.due && !Live(r) && !CanSend(s))
  }

  ghost predicate Inv(p: Pair) {
    Sound(p.x) && Sound(p.y) && Flow(p.x, p.y) && Flow(p.y, p.x)
  }

  lemma {:induction false} ComingAppend(a: seq<Packet>, b: seq<Packet>)
    ensures StopOf(a).Neither? ==> Coming(a + b) == Coming(a) + Coming(b) && StopOf(a + b) == StopOf(b)
    ensures !StopOf(a).Neither? ==> Coming(a + b) == Coming(a) && StopOf(a + b) == StopOf(a)
  {
    if a == [] {
      assert a + b == b;
    } else {
      assert (a + b)[1..] == a[1..] + b;
      ComingAppend(a[1..], b);
    }
  }

  lemma {:induction false} ComingSegments(data: bytes, endStream: bool)
    ensures var s := Segments(data, endStream);
      Coming(s) == Countable(data, endStream) && StopOf(s) == if endStream then EndFirst else Neither
    decreases |data|
  {
    var s := Segments(data, endStream);
    if |data| > MAX_PAYLOAD {
      assert s[1..] == Segments(data[MAX_PAYLOAD..], endStream);
      ComingSegments(data[MAX_PAYLOAD..], endStream);
      assert data == data[..MAX_PAYLOAD] + data[MAX_PAYLOAD..];
    } else {
      assert s[1..] == [] && data[..|data|] == data;
    }
  }

  lemma PrefixAppend(a: bytes, b: bytes, c: bytes)
    requires a <= b
    ensures a <= b + c
  {
  }

  /** Sending: `out` joins the packets in flight, what they bring becomes due. */
  lemma SenderKeeps(s: Side, r: Side, s': Side, out: seq<Packet>, data: bytes)
    requires Flow(s, r)
    requires s'.flying == s.flying + out && s'.due == s.due + Coming(out) && s'.written == s.written + data
    requires Coming(out) <= data && (CanSend(s') ==> Coming(out) == data)
    requires Coming(out) != [] || data != [] || HasEnd(out) ==> CanSend(s)
    requires CanSend(s') ==> CanSend(s)
    requires HasEnd(out) ==> !CanSend(s')
    ensures Flow(s', r)
  {
    hide Held;
    ComingAppend(s.flying, out);
    var a, c, d := Accepted(r), Coming(s.flying), Coming(out);
    PrefixAppend(a, s.due, d);
    if Live(r) {
      PrefixAppend(a + c, s.due, d);
    }
    assert a + (c + d) == (a + c) + d;
    assert a + (c + []) == a + c && s.due + [] == s.due && s.written + [] == s.written;
    if CanSend(s) && StopOf(s.flying).EndFirst? {
      EndFirstHasEnd(s.flying);
    }
    if HasEnd(s'.flying) {
      EndOfAppend(s.flying, out);
    }
    assert s'.due <= s'.written by { PrefixJoin(s.due, s.written, d, data, CanSend(s)); }
  }

  lemma EndOfAppend(a: seq<Packet>, b: seq<Packet>)
    requires HasEnd(a + b)
    ensures HasEnd(a) || HasEnd(b)
  {
    var i :| 0 <= i < |a + b| && (a + b)[i].Data? && (a + b)[i].endStream;
    if i < |a| {
      assert a[i].endStream;
    } else {
      assert b[i - |a|].endStream;
    }
  }

  lemma PrefixJoin(a: bytes, b: bytes, d: bytes, e: bytes, equal: bool)
    requires a <= b && d <= e && (equal ==> a == b) && (e != [] ==> equal)
    ensures a + d <= b + e
  {
  }

  /** A sender that only loses the right to send. */
  lemma SenderQuiet(s: Side, r: Side, s': Side)
    requires Flow(s, r) && s'.flying == s.flying && s'.due == s.due && s'.written == s.written
    requires CanSend(s') ==> CanSend(s)
    ensures Flow(s', r)
  {
    hide Held, Coming, StopOf;
  }

  /** A receiver that accepts nothing new. */
  lemma ReceiverQuiet(s: Side, r: Side, r': Side)
    requires Flow(s, r) && Accepted(r') == Accepted(r) && r'.ended == r.ended && (Live(r') ==> Live(r))
    ensures Flow(s, r')
  {
    hide Held, Coming, StopOf, Accepted;
  }

  /** A live receiver takes the next DATA packet. */
  lemma ReceiverTakes(s: Side, r: Side, s': Side, r': Side)
    requires Flow(s, r) && Live(r) && s.flying != [] && s.flying[0].Data?
    requires s' == s.(flying := s.flying[1..])
    requires Accepted(r') == Accepted(r) + s.flying[0].payload
    requires r'.ended == (r.ended || s.flying[0].endStream)
    requires Live(r') <==> !s.flying[0].endStream
    ensures Flow(s', r')
  {
    hide Held, Accepted;
    var a, m := Accepted(r), s.flying[0];
    assert a + (m.payload + Coming(s.flying[1..])) == (a + m.payload) + Coming(s.flying[1..]);
    assert a + m.payload <= a + Coming(s.flying);
  }

  /** A receiver that is not live, or meets a reset, takes nothing from the next packet. */
  lemma ReceiverRefuses(s: Side, r: Side, s': Side, r': Side)
    requires Flow(s, r) && s.flying != [] && s' == s.(flying := s.flying[1..])
    requires Accepted(r') == Accepted(r) && r'.ended == r.ended && !Live(r')
    requires Live(r) ==> s.flying[0].Reset?
    ensures Flow(s', r')
  {
    hide Held, Accepted, Coming;
    EndOfTail(s.flying);
  }

  lemma EndOfTail(ps: seq<Packet>)
    requires ps != []
    ensures HasEnd(ps[1..]) ==> HasEnd(ps)
  {
    if HasEnd(ps[1..]) {
      var i :| 0 <= i < |ps[1..]| && ps[1..][i].Data? && ps[1..][i].endStream;
      assert ps[i + 1].endStream;
    }
  }

  // The steps.

  lemma WriteKeeps(p: Pair, data: bytes, endStream: bool)
    requires Inv(p)
    ensures Inv(Act(p, DoWrite(data, endStream)))
  {
    var p', out := Act(p, DoWrite(data, endStream)), Segments(data, endStream);
    if CanSend(p.x) {
      hide Held, Coming, StopOf, Segments, Accepted;
      ComingSegments(data, endStream);
      assert HasEnd(out) ==> endStream by { SegmentsCarry(data, endStream); }
      SenderKeeps(p.x, p.y, p'.x, out, data);
      assert Accepted(p'.x) == Accepted(p.x) by { SameAccepted(p.x, p'.x); }
      ReceiverQuiet(p.y, p.x, p'.x);
    }
  }

  lemma SameAccepted(r: Side, r': Side)
    requires r'.read == r.read && r'.ep.reader.buf == r.ep.reader.buf && r'.ep.reader.blocks == r.ep.reader.blocks
    ensures Accepted(r') == Accepted(r)
  {
  }

  lemma CloseKeeps(p: Pair)
    requires Inv(p)
    ensures Inv(Act(p, DoClose))
  {
    var p', out := Act(p, DoClose), CloseCall(p.x.ep).out;
    assert Coming(out) == [] && p.x.due + [] == p.x.due && p.x.written + [] == p.x.written;
    hide Held, Coming, StopOf, Accepted;
    SenderKeeps(p.x, p.y, p'.x, out, []);
    SameAccepted(p.x, p'.x);
    ReceiverQuiet(p.y, p.x, p'.x);
  }

  lemma ResetKeeps(p: Pair, code: nat)
    requires Inv(p)
    ensures Inv(Act(p, DoReset(code)))
  {
    var p', out := Act(p, DoReset(code)), ResetCall(p.x.ep, code).out;
    assert Coming(out) == [] && p.x.due + [] == p.x.due && p.x.written + [] == p.x.written;
    hide Held, Coming, StopOf, Accepted;
    SenderKeeps(p.x, p.y, p'.x, out, []);
    SameAccepted(p.x, p'.x);
    ReceiverQuiet(p.y, p.x, p'.x);
  }

  lemma ReadKeeps(p: Pair, n: nat)
    requires Inv(p)
    ensures Inv(Act(p, DoRead(n)))
    ensures Accepted(Act(p, DoRead(n)).x) == Accepted(p.x)
  {
    hide Held, Coming, StopOf, Take, TakeOutcome;
    var p' := Act(p, DoRead(n));
    TakeConserves(p.x.ep.reader, n);
    var o := TakeOutcome(p.x.ep.reader, n);
    if p.x.ep.state.err.None? && o.Got? {
      var rest := Held(Take(p.x.ep.reader, n));
      assert (p.x.read + o.bs) + rest == p.x.read + (o.bs + rest);
    } else {
      assert p.x.read + [] == p.x.read;
    }
    hide Accepted;
    SenderQuiet(p.x, p.y, p'.x);
    ReceiverQuiet(p.y, p.x, p'.x);
  }

  lemma DeliverKeeps(p: Pair)
    requires Inv(p)
    ensures Inv(Act(p, Deliver))
  {
    if p.y.flying != [] && !Full(p.x.ep, p.y.flying[0]) {
      var m, p' := p.y.flying[0], Act(p, Deliver);
      var r := Handle(p.x.ep, m);
      hide Held, Coming, StopOf, Accepted, NonEmpty;
      DeliverAtReader(p, m);
      // What x answers, if anything, is a reset.
      assert Coming(r.out) == [] && !HasEnd(r.out) by { OnlyResets(r.out); }
      assert p.x.due + [] == p.x.due && p.x.written + [] == p.x.written;
      SenderKeeps(p.x, p.y, p'.x, r.out, []);
      FlowIgnoresFlying(p'.x, p.y, p'.y);
      if Live(p.x) && m.Data? {
        ReceiverTakes(p.y, p.x, p'.y, p'.x);
      } else {
        ReceiverRefuses(p.y, p.x, p'.y, p'.x);
      }
    }
  }

  lemma OnlyResets(out: seq<Packet>)
    requires forall i :: 0 <= i < |out| ==> out[i].Reset?
    ensures Coming(out) == [] && !HasEnd(out)
  {
  }

  lemma FlowIgnoresFlying(s: Side, r: Side, r': Side)
    requires Flow(s, r) && r' == r.(flying := r'.flying)
    ensures Flow(s, r')
  {
    hide Held, Coming, StopOf;
  }

  lemma DeliverAtReader(p: Pair, m: Packet)
    requires Sound(p.x) && p.y.flying != [] && m == p.y.flying[0] && !Full(p.x.ep, m)
    ensures var x' := Act(p, Deliver).x;
      && Sound(x')
      && Accepted(x') == Accepted(p.x) + (if Live(p.x) && m.Data? then m.payload else [])
      && (Live(p.x) && m.Data? ==> (Live(x') <==> !m.endStream))
      && (!(Live(p.x) && m.Data?) ==> !Live(x'))
  {
    hide Held;
    var x' := Act(p, Deliver).x;
    if Live(p.x) && m.Data? {
      EnqueueAppends(p.x.ep.reader, m.payload);
      var h := Held(p.x.ep.reader);
      assert p.x.read + (h + m.payload) == (p.x.read + h) + m.payload;
    } else {
      SameAccepted(p.x, x');
      assert Accepted(p.x) + [] == Accepted(p.x);
    }
  }

  lemma ActKeeps(p: Pair, op: Op)
    requires Inv(p)
    ensures Inv(Act(p, op))
  {
    hide Inv, Act;
    match op
    case DoWrite(data, endStream) => WriteKeeps(p, data, endStream);
    case DoClose => CloseKeeps(p);
    case DoReset(code) => ResetKeeps(p, code);
    case DoRead(n) => ReadKeeps(p, n);
    case Deliver => DeliverKeeps(p);
  }

  lemma NextKeeps(p: Pair, s: Step)
    requires Inv(p)
    ensures Inv(Next(p, s))
  {
    hide Act, Sound, Flow;
    ActKeeps(if s.left then p else Swap(p), s.op);
  }

  lemma {:induction false} RunKeeps(p: Pair, steps: seq<Step>)
    requires Inv(p)
    ensures Inv(Run(p, steps))
    decreases |steps|
  {
    hide Inv, Next;
    if steps != [] {
      NextKeeps(p, steps[0]);
      RunKeeps(Next(p, steps[0]), steps[1..]);
    }
  }

  lemma StartSound()
    ensures Inv(Start)
  {
    assert Held(NewEndpoint.reader) == [];
  }
}
