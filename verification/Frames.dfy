/** The byte format of a connection: frames, their typed readings and the frame reader (wire/frame.go, wire/frame_reader.go). */
module Frames {
  import opened Base
  import opened Readers
  import opened Streams

  const MAGIC: bytes := [0x61, 0x72, 0x66]
  const HEADER: nat := 11
  const SCRATCH: nat := 4
  const PROTOCOL_ERROR: nat := 1

  const HELLO: nat := 0
  const PING: nat := 1
  const GO_AWAY: nat := 2
  const MAKE_STREAM: nat := 3
  const RESET_STREAM: nat := 4
  const DATA: nat := 5

  datatype Frame = Frame(streamID: nat, kind: byte, flags: byte, length: nat, payload: bytes)

  /** A frame the format can carry: machine-sized fields, a kind the reader knows. */
  predicate Carriable(f: Frame) {
    f.streamID < TWO_32 && f.kind <= DATA
  }

  /** The header says how long the payload is. */
  predicate Measured(f: Frame) {
    f.length == |f.payload| < TWO_16
  }

  function Header(f: Frame): (h: bytes)
    ensures |h| == HEADER
  {
    MAGIC + (BE(f.streamID, 4) + ([f.kind, f.flags] + BE16(|f.payload| % TWO_16)))
  }

  /** wire/frame.go:33-44, without compression. The length written is the payload's, as a uint16. */
  function Bytes(f: Frame): bytes { Header(f) + f.payload }

  datatype Fault = Io(error: Error) | BadMagic | UnknownKind(kind: byte)

  datatype FrameRes = Got(frame: Frame, pos: nat) | Failed(fault: Fault, pos: nat)

  function HeaderOf(h: bytes): Frame
    requires |h| == HEADER
  {
    Frame(FromBE(h[3..7]), h[7], h[8], FromBE16(h[9..11]), [])
  }

  function ReadFrame(inp: Input, pos: nat): (r: FrameRes)
    requires pos <= |inp.data|
    ensures pos <= r.pos <= |inp.data|
    ensures r.Got? ==> Measured(r.frame) && r.pos == pos + HEADER + |r.frame.payload|
  {
    match ReadFull(inp, pos, NoLimit(inp), HEADER)
    case Err(e, p) => Failed(Io(e), p)
    case Ok(h, p) =>
      if h[..3] != MAGIC then Failed(BadMagic, p)
      else if h[7] > DATA then Failed(UnknownKind(h[7]), p)
      else
        match ReadFull(inp, p, NoLimit(inp), HeaderOf(h).length)
        case Err(e, q) => Failed(Io(e), q)
        case Ok(body, q) => Got(HeaderOf(h).(payload := body), q)
  }

  lemma HeaderRoundTrip(f: Frame)
    requires Carriable(f)
    ensures Header(f)[..3] == MAGIC && Header(f)[7] == f.kind
    ensures HeaderOf(Header(f)) == f.(length := |f.payload| % TWO_16, payload := [])
  {
    var h, id, n := Header(f), BE(f.streamID, 4), BE16(|f.payload| % TWO_16);
    assert h[3..7] == id && h[9..11] == n;
    assert Pow2(32) == TWO_32 by { Pow2At32(); }
    BERoundTrip(f.streamID, 4);
  }

  lemma Pow2At32()
    ensures Pow2(32) == TWO_32
  {
    assert Pow2(8) == 256;
    hide Pow2;
    Pow2Sum(8, 8);
    Pow2Sum(16, 16);
  }

  /**
   * However the bytes arrive, the reader gives back the frame that was written and stops at its
   * end - exactly when the payload fits the 16-bit length. A longer one comes back cut.
   */
  lemma FrameRoundTrip(f: Frame, inp: Input, pos: nat)
    requires Carriable(f) && At(inp.data, pos, Bytes(f))
    ensures var n := |f.payload| % TWO_16;
      ReadFrame(inp, pos) == Got(f.(length := n, payload := f.payload[..n]), pos + HEADER + n)
    ensures ReadFrame(inp, pos) == Got(f.(length := |f.payload|), pos + |Bytes(f)|) <==> |f.payload| < TWO_16
  {
    hide BE, FromBE, BE16, FromBE16, Pow2;
    var h, n := Header(f), |f.payload| % TWO_16;
    AtConcat(inp.data, pos, h, f.payload);
    HeaderRoundTrip(f);
    SlicePrefix(inp.data, pos + HEADER, |f.payload|, n);
    assert |f.payload| < TWO_16 ==> f.payload[..n] == f.payload;
  }

  /** A frame whose bytes stop short is never returned: the read reports an input error. */
  lemma TornFrame(f: Frame, k: nat, inp: Input, pos: nat)
    requires Carriable(f) && Measured(f) && k < |Bytes(f)|
    requires pos <= |inp.data| && inp.data[pos..] == Bytes(f)[..k]
    ensures ReadFrame(inp, pos).Failed? && ReadFrame(inp, pos).fault.Io?
  {
    hide BE, FromBE, BE16, FromBE16, Pow2;
    if k >= HEADER {
      assert inp.data[pos..pos + HEADER] == inp.data[pos..][..HEADER] == Header(f);
      HeaderRoundTrip(f);
    }
  }

  // A connection's worth of frames.

  function AllBytes(fs: seq<Frame>): bytes {
    if fs == [] then [] else Bytes(fs[0]) + AllBytes(fs[1..])
  }

  datatype Batch = Batch(frames: seq<Frame>, fault: Option<Fault>, pos: nat)

  /** At most `n` frames, stopping at the first fault. */
  function ReadFrames(inp: Input, pos: nat, n: nat): (r: Batch)
    requires pos <= |inp.data|
    ensures |r.frames| <= n && (r.fault == None <==> |r.frames| == n)
    ensures pos <= r.pos <= |inp.data|
    decreases n
  {
    if n == 0 then Batch([], None, pos)
    else
      match ReadFrame(inp, pos)
      case Failed(e, p) => Batch([], Some(e), p)
      case Got(f, p) =>
        var rest := ReadFrames(inp, p, n - 1);
        Batch([f] + rest.frames, rest.fault, rest.pos)
  }

  predicate AllSound(fs: seq<Frame>) {
    forall i :: 0 <= i < |fs| ==> Carriable(fs[i]) && Measured(fs[i])
  }

  lemma {:induction false} StreamRoundTrip(fs: seq<Frame>, inp: Input, pos: nat)
    requires AllSound(fs) && At(inp.data, pos, AllBytes(fs))
    ensures ReadFrames(inp, pos, |fs|) == Batch(fs, None, pos + |AllBytes(fs)|)
    decreases |fs|
  {
    hide Bytes, ReadFrame;
    if fs != [] {
      var f := fs[0];
      AtConcat(inp.data, pos, Bytes(f), AllBytes(fs[1..]));
      FrameRoundTrip(f, inp, pos);
      assert ReadFrame(inp, pos) == Got(f, pos + |Bytes(f)|);
      StreamRoundTrip(fs[1..], inp, pos + |Bytes(f)|);
      assert fs == [f] + fs[1..];
    }
  }

  // The typed frames (wire/frame.go:83-302).

  datatype Typed =
    | Hello(ack: bool, gzip: bool, maxStreams: nat)
    | Ping(ack: bool, payload: bytes)
    | GoAway(last: nat, code: nat, extra: bytes)
    | MakeStream(id: nat)
    | ResetStream(id: nat, code: nat)
    | DataFrame(id: nat, endData: bool, endStream: bool, payload: bytes)

  function KindOf(t: Typed): (k: byte)
    ensures k <= DATA
  {
    match t
    case Hello(_, _, _) => HELLO
    case Ping(_, _) => PING
    case GoAway(_, _, _) => GO_AWAY
    case MakeStream(_) => MAKE_STREAM
    case ResetStream(_, _) => RESET_STREAM
    case DataFrame(_, _, _, _) => DATA
  }

  /** The uint32 fields are in range. */
  predicate InRange(t: Typed) {
    match t
    case Hello(_, _, n) => n < TWO_32
    case Ping(_, _) => true
    case GoAway(last, code, _) => last < TWO_32 && code < TWO_32
    case MakeStream(id) => id < TWO_32
    case ResetStream(id, code) => id < TWO_32 && code < TWO_32
    case DataFrame(id, _, _, _) => id < TWO_32
  }

  function Bit(b: bool, value: nat): nat { if b then value else 0 }

  function Framed(id: nat, kind: byte, flags: byte, payload: bytes): Frame {
    Frame(id, kind, flags, |payload| % TWO_16, payload)
  }

  function IntoFrame(t: Typed): Frame {
    match t
    case Hello(ack, gzip, n) => Framed(0, HELLO, Bit(ack, 1) + Bit(gzip, 2), BE(n, 4))
    case Ping(ack, payload) => Framed(0, PING, Bit(ack, 4), payload)
    case GoAway(last, code, extra) => Framed(0, GO_AWAY, 0, BE(last, 4) + (BE(code, 4) + extra))
    case MakeStream(id) => Framed(id, MAKE_STREAM, 0, [])
    case ResetStream(id, code) => Framed(id, RESET_STREAM, 0, BE(code, 4))
    case DataFrame(id, endData, endStream, payload) =>
      Framed(id, DATA, Bit(endStream, 1) + Bit(endData, 2), payload)
  }

  datatype Objection = TypeMismatch | Unassociated | Associated | BadLength | Invalid

  /** `Panics` where the source would index past a payload shorter than the length claims. */
  datatype Answer = Parsed(typed: Typed) | Rejected(why: Objection) | Panics

  function ValidateKind(f: Frame, expected: byte, associated: bool): Option<Objection> {
    if f.kind != expected then Some(TypeMismatch)
    else if associated && f.streamID == 0 then Some(Unassociated)
    else if !associated && f.streamID != 0 then Some(Associated)
    else None
  }

  function ValidateSize(f: Frame, s: nat): Option<Objection> {
    if f.length != s % TWO_16 then Some(BadLength) else None
  }

  predicate Associates(kind: byte) { kind >= MAKE_STREAM }

  function U32(b: bytes, at: nat): nat
    requires at + 4 <= |b|
  {
    FromBE(b[at..at + 4])
  }

  /** The FromFrame of the typed frame of kind `expected`, called on a fresh receiver. */
  function FromFrame(expected: byte, f: Frame): Answer
    requires expected <= DATA
  {
    var bad := ValidateKind(f, expected, Associates(expected));
    if bad.Some? then Rejected(bad.value)
    else if expected == HELLO then HelloFrom(f)
    else if expected == PING then
      if ValidateSize(f, 8).Some? then Rejected(BadLength) else Parsed(Ping(f.flags / 4 % 2 == 1, f.payload))
    else if expected == GO_AWAY then
      if f.length < 8 then Rejected(BadLength)
      else if |f.payload| < 8 then Panics
      else Parsed(GoAway(U32(f.payload, 0), U32(f.payload, 4), f.payload[8..]))
    else if expected == MAKE_STREAM then
      if ValidateSize(f, 0).Some? then Rejected(BadLength) else Parsed(MakeStream(f.streamID))
    else if expected == RESET_STREAM then
      if ValidateSize(f, 4).Some? then Rejected(BadLength)
      else if |f.payload| < 4 then Panics
      else Parsed(ResetStream(f.streamID, U32(f.payload, 0)))
    else
      Parsed(DataFrame(f.streamID, f.flags / 2 % 2 == 1, f.flags % 2 == 1, f.payload))
  }

  function HelloFrom(f: Frame): Answer {
    if f.length != 0 && f.length != 4 then Rejected(BadLength)
    else if f.length != 0 && |f.payload| < 4 then Panics
    else
      var ack, n := f.flags % 2 == 1, if f.length != 0 then U32(f.payload, 0) else 0;
      if n != 0 && !ack then Rejected(Invalid) else Parsed(Hello(ack, f.flags / 2 % 2 == 1, n))
  }

  /** What a sender can check before it makes the frame. */
  predicate Proper(t: Typed) {
    match t
    case Hello(ack, _, n) => ack || n == 0
    case Ping(_, payload) => |payload| % TWO_16 == 8
    case GoAway(_, _, extra) => |extra| % TWO_16 < TWO_16 - 8
    case MakeStream(id) => id != 0
    case ResetStream(id, _) => id != 0
    case DataFrame(id, _, _, _) => id != 0
  }

  lemma U32RoundTrip(v: nat, before: bytes, after: bytes)
    requires v < TWO_32
    ensures U32(before + (BE(v, 4) + after), |before|) == v
  {
    var b := before + (BE(v, 4) + after);
    assert b[|before|..|before| + 4] == BE(v, 4);
    Pow2At32();
    hide Pow2, BE, FromBE;
    BERoundTrip(v, 4);
  }

  /** FromFrame undoes IntoFrame for exactly the proper frames; nothing else is accepted. */
  lemma TypedRoundTrip(t: Typed)
    requires InRange(t)
    ensures FromFrame(KindOf(t), IntoFrame(t)) == Parsed(t) <==> Proper(t)
    ensures FromFrame(KindOf(t), IntoFrame(t)).Parsed? <==> Proper(t)
  {
    hide U32, BE;
    match t
    case Hello(_, _, n) => U32Alone(n);
    case GoAway(last, code, extra) => GoAwayParts(last, code, extra);
    case ResetStream(_, code) => U32Alone(code);
    case _ =>
  }

  lemma U32Alone(v: nat)
    requires v < TWO_32
    ensures U32(BE(v, 4), 0) == v
  {
    hide U32, BE;
    U32RoundTrip(v, [], []);
    assert [] + (BE(v, 4) + []) == BE(v, 4);
  }

  lemma GoAwayParts(last: nat, code: nat, extra: bytes)
    requires last < TWO_32 && code < TWO_32
    ensures var p := BE(last, 4) + (BE(code, 4) + extra);
      U32(p, 0) == last && U32(p, 4) == code && p[8..] == extra
  {
    hide U32, BE;
    var p := BE(last, 4) + (BE(code, 4) + extra);
    U32RoundTrip(last, [], BE(code, 4) + extra);
    U32RoundTrip(code, BE(last, 4), extra);
    assert [] + p == p;
  }

  lemma {:induction false} FromBEBound(b: bytes)
    ensures FromBE(b) < Pow2(8 * |b|)
  {
    if b != [] {
      var n := |b| - 1;
      FromBEBound(b[..n]);
      assert Pow2(8 * |b|) == 256 * Pow2(8 * n) by { Pow2Sum(8, 8 * n); }
    }
  }

  lemma U32Bound(b: bytes, at: nat)
    requires at + 4 <= |b|
    ensures U32(b, at) < TWO_32
  {
    FromBEBound(b[at..at + 4]);
    Pow2At32();
  }

  /**
   * What the frame reader hands over never makes FromFrame panic, and what FromFrame accepts it
   * accepts again, unchanged, after being framed anew - whatever flag bits came with it.
   */
  lemma AcceptedReframes(f: Frame)
    requires Carriable(f) && Measured(f)
    ensures !FromFrame(f.kind, f).Panics?
    ensures FromFrame(f.kind, f).Parsed? ==>
      var t := FromFrame(f.kind, f).typed;
      KindOf(t) == f.kind && InRange(t) && Proper(t) && FromFrame(f.kind, IntoFrame(t)) == Parsed(t)
  {
    if |f.payload| >= 4 {
      U32Bound(f.payload, 0);
    }
    if |f.payload| >= 8 {
      U32Bound(f.payload, 4);
    }
    var r := FromFrame(f.kind, f);
    assert r.Parsed? ==> KindOf(r.typed) == f.kind && InRange(r.typed) && Proper(r.typed);
    hide U32, BE, IntoFrame;
    if r.Parsed? {
      TypedRoundTrip(r.typed);
    }
  }

  // A stream's packets on the wire.

  function OnWire(id: nat, p: Packet): Typed {
    match p
    case Data(payload, endData, endStream) => DataFrame(id, endData, endStream, payload)
    case Reset(code) => ResetStream(id, code)
  }

  function FramesOf(id: nat, ps: seq<Packet>): (r: seq<Frame>)
    ensures |r| == |ps|
  {
    seq(|ps|, i requires 0 <= i < |ps| => IntoFrame(OnWire(id, ps[i])))
  }

  /**
   * Every frame of a Write on stream `id`, put on the wire and read back however the bytes are
   * chunked, is accepted as the very packet the stream made: the queues between two endpoints
   * lose and reorder nothing.
   */
  lemma WriteCrossesTheWire(id: nat, buffer: bytes, endStream: bool, inp: Input, pos: nat)
    requires 0 < id < TWO_32
    requires At(inp.data, pos, AllBytes(FramesOf(id, Segments(buffer, endStream))))
    ensures var s := Segments(buffer, endStream);
      var fs := FramesOf(id, s);
      && ReadFrames(inp, pos, |s|) == Batch(fs, None, pos + |AllBytes(fs)|)
      && forall i :: 0 <= i < |s| ==> FromFrame(DATA, fs[i]) == Parsed(OnWire(id, s[i]))
  {
    hide Segments, AllBytes;
    var s := Segments(buffer, endStream);
    SegmentsCarry(buffer, endStream);
    var fs := FramesOf(id, s);
    forall i | 0 <= i < |s|
      ensures Carriable(fs[i]) && Measured(fs[i]) && FromFrame(DATA, fs[i]) == Parsed(OnWire(id, s[i]))
    {
      assert s[i].Data? && |s[i].payload| <= MAX_PAYLOAD;
    }
    StreamRoundTrip(fs, inp, pos);
  }

  // The reader, with its reused scratch buffer (wire/frame_reader.go).

  /** A frame object; its payload is a slice of its own. */
  datatype Received = Received(streamID: nat, kind: byte, flags: byte, length: nat, payload: array<byte>)

  ghost predicate Shows(o: Received, f: Frame)
    reads o.payload
  {
    f == Frame(o.streamID, o.kind, o.flags, o.length, o.payload[..])
  }

  /** Two readings that end alike. */
  ghost predicate Agree(a: Res<bytes>, b: Res<bytes>) {
    a.pos == b.pos && a.Ok? == b.Ok? && (a.Err? ==> a == b)
  }

  lemma AgreeSelf(a: Res<bytes>)
    ensures Agree(a, a)
  {
  }

  lemma AgreeEnds(a: Res<bytes>, b: Res<bytes>)
    requires Agree(a, b) && b.Ok?
    ensures a.Ok? && a.pos == b.pos
  {
  }

  lemma ReadFullStep(inp: Input, pos: nat, end: nat, n: nat, started: bool)
    requires pos <= |inp.data| && n > 0
    ensures match Readers.Read(inp, pos, end, n)
      case Err(e, p) => ReadFull(inp, pos, end, n, started) == Err(if started && e == EOF then UnexpectedEOF else e, p)
      case Ok(bs, p) => Agree(ReadFull(inp, pos, end, n, started), ReadFull(inp, p, end, n - |bs|, true))
  {
  }

  lemma Longer(t: bytes, data: bytes, p: nat, a: nat, k: nat)
    requires |t| == a + k && p + a + k <= |data|
    requires t[..a] == data[p..p + a] && t[a..a + k] == data[p + a..p + a + k]
    ensures t == data[p..p + a + k]
  {
    assert t == t[..a] + t[a..a + k];
  }

  lemma BatchStep(inp: Input, pos: nat, n: nat)
    requires pos <= |inp.data|
    ensures n == 0 ==> ReadFrames(inp, pos, n) == Batch([], None, pos)
    ensures n > 0 ==> match ReadFrame(inp, pos)
      case Failed(e, p) => ReadFrames(inp, pos, n) == Batch([], Some(e), p)
      case Got(f, p) => ReadFrames(inp, pos, n) == Prepend([f], ReadFrames(inp, p, n - 1))
  {
    if n == 0 {
      assert ReadFrames(inp, pos, 0) == Batch([], None, pos);
    }
  }

  ghost function Prepend(fs: seq<Frame>, b: Batch): Batch { b.(frames := fs + b.frames) }

  lemma PrependTwice(a: seq<Frame>, f: Frame, b: Batch)
    ensures Prepend(a, Prepend([f], b)) == Prepend(a + [f], b)
  {
    assert a + ([f] + b.frames) == (a + [f]) + b.frames;
  }

  lemma PrependNone(b: Batch)
    ensures Prepend([], b) == b
  {
  }

  lemma PrependNothing(fs: seq<Frame>, fault: Option<Fault>, pos: nat)
    ensures Prepend(fs, Batch([], fault, pos)) == Batch(fs, fault, pos)
  {
  }

  class FrameReader {
    var tmp: array<byte>
    const r: Input
    var pos: nat

    ghost predicate Valid()
      reads this
    {
      tmp.Length >= SCRATCH && pos <= |r.data|
    }

    constructor (input: Input)
      ensures Valid() && r == input && pos == 0 && fresh(tmp)
    {
      tmp := new byte[SCRATCH](_ => 0);
      r, pos := input, 0;
    }

    /** One Read of the connection into `tmp[from..n]`. */
    method Chunk(from: nat, n: nat) returns (e: Option<Error>, k: nat)
      requires Valid() && from < n <= tmp.Length
      modifies this`pos, tmp
      ensures Valid() && from + k <= n
      ensures tmp[..from] == old(tmp[..from])
      ensures match Readers.Read(r, old(pos), NoLimit(r), n - from)
        case Ok(bs, p) => e == None && k == |bs| && tmp[from..from + k] == bs && pos == p
        case Err(x, p) => e == Some(x) && k == 0 && pos == p
    {
      match Readers.Read(r, pos, NoLimit(r), n - from) {
        case Err(x, _) =>
          return Some(x), 0;
        case Ok(bs, p) =>
          k := |bs|;
          forall i | 0 <= i < k {
            tmp[from + i] := bs[i];
          }
          pos := p;
          return None, k;
      }
    }

    /** One round of io.ReadFull: `e` ends it. */
    method More(got: nat, n: nat, ghost start: nat, ghost whole: Res<bytes>) returns (e: Option<Error>, k: nat)
      requires Valid() && got < n <= tmp.Length && pos == start + got && tmp[..got] == r.data[start..pos]
      requires Agree(whole, ReadFull(r, pos, NoLimit(r), n - got, got > 0))
      modifies this`pos, tmp
      ensures Valid()
      ensures e.Some? ==> whole == Err(e.value, pos)
      ensures e.None? ==>
        && 0 < k <= n - got && pos == start + got + k && tmp[..got + k] == r.data[start..pos]
        && Agree(whole, ReadFull(r, pos, NoLimit(r), n - got - k, true))
    {
      hide ReadFull, Readers.Read;
      ReadFullStep(r, pos, NoLimit(r), n - got, got > 0);
      e, k := Chunk(got, n);
      if e.Some? {
        if got > 0 && e.value == EOF {
          e := Some(UnexpectedEOF);
        }
        return;
      }
      ghost var t := tmp[..got + k];
      assert t[..got] == tmp[..got] && t[got..got + k] == tmp[got..got + k];
      Longer(t, r.data, start, got, k);
    }

    /** io.ReadFull into the front of the scratch buffer: it reads until full or until an error. */
    method Fill(n: nat) returns (e: Option<Error>)
      requires Valid() && n <= tmp.Length
      modifies this`pos, tmp
      ensures Valid()
      ensures match ReadFull(r, old(pos), NoLimit(r), n)
        case Ok(bs, p) => e == None && tmp[..n] == bs && pos == p
        case Err(x, p) => e == Some(x) && pos == p
    {
      hide ReadFull, Readers.Read, Agree;
      var got := 0;
      ghost var whole := ReadFull(r, pos, NoLimit(r), n);
      AgreeSelf(whole);
      while got < n
        invariant Valid() && got <= n && pos == old(pos) + got
        invariant tmp[..got] == r.data[old(pos)..pos]
        invariant Agree(whole, ReadFull(r, pos, NoLimit(r), n - got, got > 0))
      {
        var k;
        e, k := More(got, n, old(pos), whole);
        if e.Some? {
          return;
        }
        got := got + k;
      }
      AgreeEnds(whole, ReadFull(r, pos, NoLimit(r), 0, got > 0));
      return None;
    }

    /** wire/frame_reader.go:30-41; the slice it returns is `tmp[..n]`. */
    method ReadSize(n: nat) returns (e: Option<Error>)
      requires Valid()
      modifies this, tmp
      ensures Valid() && n <= tmp.Length && (tmp == old(tmp) || fresh(tmp))
      ensures match ReadFull(r, old(pos), NoLimit(r), n)
        case Ok(bs, p) => e == None && tmp[..n] == bs && pos == p
        case Err(x, p) => e == Some(x) && pos == p
    {
      if n == 0 {
        return None;
      }
      if tmp.Length - SCRATCH < n {
        var grown := new byte[SCRATCH + n](_ => 0);
        forall i | 0 <= i < tmp.Length && i < grown.Length {
          grown[i] := tmp[i];
        }
        tmp := grown;
      }
      e := Fill(n);
    }

    /** bytes.Clone of the front of the scratch buffer. */
    method Clone(n: nat) returns (copy: array<byte>)
      requires n <= tmp.Length
      ensures fresh(copy) && copy.Length == n && copy[..] == tmp[..n]
    {
      copy := new byte[n](_ => 0);
      forall i | 0 <= i < n {
        copy[i] := tmp[i];
      }
    }

    /** wire/frame_reader.go:49-79. The payload returned is a copy, never the scratch buffer. */
    method Read() returns (o: Option<Received>, fault: Option<Fault>)
      requires Valid()
      modifies this, tmp
      ensures Valid() && (tmp == old(tmp) || fresh(tmp))
      ensures match ReadFrame(r, old(pos))
        case Got(f, p) =>
          fault == None && pos == p && o.Some? && Shows(o.value, f) && fresh(o.value.payload) && o.value.payload != tmp
        case Failed(x, p) => fault == Some(x) && pos == p && o == None
    {
      hide FromBE, FromBE16, ReadFull;
      var e := ReadSize(HEADER);
      if e.Some? {
        return None, Some(Io(e.value));
      }
      ghost var h := tmp[..HEADER];
      assert h[..3] == tmp[..3];
      if tmp[..3] != MAGIC {
        return None, Some(BadMagic);
      }
      var kind := tmp[7];
      if kind > DATA {
        return None, Some(UnknownKind(kind));
      }
      assert h[3..7] == tmp[3..7] && h[9..11] == tmp[9..11];
      var id, flags, length := FromBE(tmp[3..7]), tmp[8], FromBE16(tmp[9..11]);
      e := ReadSize(length);
      if e.Some? {
        return None, Some(Io(e.value));
      }
      var payload := Clone(length);
      return Some(Received(id, kind, flags, length, payload)), None;
    }

    /**
     * The read loop (wire/conn.go:102-112), keeping every frame: those returned early still show
     * what they showed, although each later read overwrote the scratch buffer.
     */
    method ReadMany(n: nat) returns (os: seq<Received>, fault: Option<Fault>)
      requires Valid()
      modifies this, tmp
      ensures Valid()
      ensures var b := ReadFrames(r, old(pos), n);
        && |os| == |b.frames| && fault == b.fault && pos == b.pos
        && forall i :: 0 <= i < |os| ==> Shows(os[i], b.frames[i])
      ensures forall i, j :: 0 <= i < j < |os| ==> os[i].payload != os[j].payload
    {
      hide ReadFrames, ReadFrame, Prepend;
      os, fault := [], None;
      ghost var seen: seq<Frame> := [];
      ghost var whole := ReadFrames(r, pos, n);
      assert Prepend([], whole) == whole by { PrependNone(whole); }
      while |os| < n
        invariant Valid() && |os| <= n && |seen| == |os| && (tmp == old(tmp) || fresh(tmp)) && fault == None
        invariant forall i :: 0 <= i < |os| ==>
          Shows(os[i], seen[i]) && os[i].payload != tmp && fresh(os[i].payload)
        invariant forall i, j :: 0 <= i < j < |os| ==> os[i].payload != os[j].payload
        invariant whole == Prepend(seen, ReadFrames(r, pos, n - |os|))
      {
        BatchStep(r, pos, n - |os|);
        var o;
        ghost var f := ReadFrame(r, pos);
        o, fault := Read();
        if o.None? {
          PrependNothing(seen, Some(f.fault), pos);
          return;
        }
        PrependTwice(seen, f.frame, ReadFrames(r, pos, n - |os| - 1));
        os, seen := os + [o.value], seen + [f.frame];
      }
      BatchStep(r, pos, 0);
      PrependNothing(seen, None, pos);
    }
  }
}
