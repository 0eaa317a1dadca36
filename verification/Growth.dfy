/**
 * What the arrival of more can change. A call that reads a message from a stream may find that not all
 * of it is there. If it finds enough, then nothing that arrives later would have changed its answer; if
 * it does not, going on later from where it stands answers what starting later would have.
 */
module Growth {
  import opened Base
  import opened Readers
  import opened Scalars
  import opened Values
  import opened Decoder
  import opened Blocks
  import opened Streams
  import opened Pair
  import opened PairLaws
  import opened Messages
  import opened Contexts
  import opened Streaming

  /** `b` is `a`, or `a` is still open and `b` holds further blocks, or the end. */
  ghost predicate Grows(a: Input, b: Input) {
    && (a == b || a.tail == WouldBlock) && a.known == b.known && a.data <= b.data
    && (forall c :: 0 <= c < |a.data| ==> (c in a.cuts <==> c in b.cuts))
    && (0 < |a.data| < |b.data| ==> |a.data| in b.cuts)
  }

  /** Limits that are the same as far as what has arrived can tell. */
  predicate SameEnd(a: Input, x: nat, y: nat) { x == y || (x > |a.data| && y > |a.data|) }

  /** Waiting, or final. */
  predicate Settled<T(==)>(r: Res<T>, s: Res<T>) { r == s || (r.Err? && r.error == WouldBlock) }

  /** A list of one value and the rest. */
  function Listed<T>(v: T, rest: Res<seq<T>>): Res<seq<T>> {
    if rest.Ok? then Ok([v] + rest.value, rest.pos) else Err(rest.error, rest.pos)
  }

  lemma ListedSettles<T>(v: T, r: Res<seq<T>>, s: Res<seq<T>>)
    requires Settled(r, s)
    ensures Settled(Listed(v, r), Listed(v, s))
  {
  }

  lemma Waits<T>(r: Res<T>, s: Res<T>)
    requires r.Err? && r.error == WouldBlock
    ensures Settled(r, s)
  {
  }

  lemma Final<T>(r: Res<T>, s: Res<T>)
    requires Settled(r, s) && (r.Ok? || r.error != WouldBlock)
    ensures r == s
  {
  }

  lemma SameSettles<T>(r: Res<T>, s: Res<T>)
    requires r == s
    ensures Settled(r, s)
  {
  }

  // Reads.

  lemma {:induction false} BlockEndGrows(a: Input, b: Input, pos: nat)
    requires Grows(a, b) && pos < |a.data|
    ensures BlockEnd(a, pos) == BlockEnd(b, pos)
    decreases |a.data| - pos
  {
    if pos + 1 < |a.data| && pos + 1 !in a.cuts {
      BlockEndGrows(a, b, pos + 1);
    }
  }

  lemma ReadGrows(a: Input, b: Input, pos: nat, x: nat, y: nat, n: nat)
    requires Grows(a, b) && pos <= |a.data| && SameEnd(a, x, y)
    ensures Settled(Read(a, pos, x, n), Read(b, pos, y, n))
  {
    if pos < |a.data| {
      BlockEndGrows(a, b, pos);
      hide BlockEnd;
      var p := Min(pos + n, Min(x, BlockEnd(a, pos)));
      if pos < x {
        assert a.data[pos..p] == b.data[pos..p];
      }
    }
  }

  lemma ByteGrows(a: Input, b: Input, pos: nat, x: nat, y: nat)
    requires Grows(a, b) && pos <= |a.data| && SameEnd(a, x, y)
    ensures Settled(ReadByte(a, pos, x), ReadByte(b, pos, y))
  {
    ReadGrows(a, b, pos, x, y, 1);
    hide Read, Grows;
  }

  function Joined(bs: bytes, rest: Res<bytes>): Res<bytes> {
    if rest.Ok? then Ok(bs + rest.value, rest.pos) else rest
  }

  /** A full read whose first read returns something: the rest decides. */
  lemma FullGoesOn(inp: Input, pos: nat, end: nat, n: nat, started: bool)
    requires pos <= |inp.data| && n > 0 && Read(inp, pos, end, n).Ok?
    ensures var r := Read(inp, pos, end, n);
      var rest := ReadFull(inp, r.pos, end, n - |r.value|, true);
      ReadFull(inp, pos, end, n, started) == Joined(r.value, rest)
  {
    hide Read;
  }

  lemma FullStops(inp: Input, pos: nat, end: nat, n: nat, started: bool)
    requires pos <= |inp.data| && n > 0 && Read(inp, pos, end, n).Err?
    ensures var r := Read(inp, pos, end, n);
      ReadFull(inp, pos, end, n, started) == Err(if started && r.error == EOF then UnexpectedEOF else r.error, r.pos)
  {
    hide Read;
  }

  lemma RestSettles(bs: bytes, r: Res<bytes>, s: Res<bytes>)
    requires Settled(r, s)
    ensures Settled(Joined(bs, r), Joined(bs, s))
  {
  }

  lemma FullNone(a: Input, b: Input, pos: nat, x: nat, y: nat, started: bool)
    requires pos <= |a.data| && pos <= |b.data|
    ensures Settled(ReadFull(a, pos, x, 0, started), ReadFull(b, pos, y, 0, started))
  {
  }

  lemma {:induction false} FullGrows(a: Input, b: Input, pos: nat, x: nat, y: nat, n: nat, started: bool)
    requires Grows(a, b) && pos <= |a.data| && SameEnd(a, x, y)
    ensures Settled(ReadFull(a, pos, x, n, started), ReadFull(b, pos, y, n, started))
    decreases n
  {
    hide Read, ReadFull, Grows, SameEnd, Settled, Joined;
    Longer(a, b);
    if n == 0 {
      FullNone(a, b, pos, x, y, started);
    } else {
      ReadGrows(a, b, pos, x, y, n);
      var r, w := Read(a, pos, x, n), Read(b, pos, y, n);
      if r.Err? && r.error == WouldBlock {
        FullStops(a, pos, x, n, started);
        Waits(ReadFull(a, pos, x, n, started), ReadFull(b, pos, y, n, started));
      } else {
        Final(r, w);
        if r.Ok? {
          FullGrows(a, b, r.pos, x, y, n - |r.value|, true);
          FullGoesOn(a, pos, x, n, started);
          FullGoesOn(b, pos, y, n, started);
          RestSettles(r.value, ReadFull(a, r.pos, x, n - |r.value|, true), ReadFull(b, r.pos, y, n - |r.value|, true));
        } else {
          FullStops(a, pos, x, n, started);
          FullStops(b, pos, y, n, started);
          SameSettles(ReadFull(a, pos, x, n, started), ReadFull(b, pos, y, n, started));
        }
      }
    }
  }

  function Filled(n: nat, r: Res<bytes>): Res<bytes> {
    if r.Err? then Err(r.error, r.pos) else Ok(r.value + Zeros(if |r.value| <= n then n - |r.value| else 0), r.pos)
  }

  lemma FilledSettles(n: nat, r: Res<bytes>, s: Res<bytes>)
    requires Settled(r, s)
    ensures Settled(Filled(n, r), Filled(n, s))
  {
    hide Zeros;
  }

  lemma BodyIs(inp: Input, pos: nat, end: nat, n: nat)
    requires pos <= |inp.data|
    ensures ReadBody(inp, pos, end, n) == Filled(n, Read(inp, pos, end, n))
  {
    hide Read, Zeros;
  }

  lemma BodyGrows(a: Input, b: Input, pos: nat, x: nat, y: nat, n: nat)
    requires Grows(a, b) && pos <= |a.data| && SameEnd(a, x, y)
    ensures Settled(ReadBody(a, pos, x, n), ReadBody(b, pos, y, n))
  {
    hide Read, ReadBody, Grows, SameEnd, Settled, Filled;
    ReadGrows(a, b, pos, x, y, n);
    Longer(a, b);
    BodyIs(a, pos, x, n);
    BodyIs(b, pos, y, n);
    FilledSettles(n, Read(a, pos, x, n), Read(b, pos, y, n));
  }

  // Values.

  lemma {:induction false} UintGrows(a: Input, b: Input, pos: nat, x: nat, y: nat)
    requires Grows(a, b) && pos <= |a.data| && SameEnd(a, x, y)
    ensures Settled(DecodeUint(a, pos, x), DecodeUint(b, pos, y))
    decreases |a.data| - pos
  {
    ByteGrows(a, b, pos, x, y);
    hide ReadByte, Grows, SameEnd;
    var r := ReadByte(a, pos, x);
    if r.Ok? && r.value >= 128 {
      UintGrows(a, b, r.pos, x, y);
    }
  }

  lemma TypeGrows(a: Input, b: Input, pos: nat, x: nat, y: nat)
    requires Grows(a, b) && pos <= |a.data| && SameEnd(a, x, y)
    ensures Settled(ReadType(a, pos, x), ReadType(b, pos, y))
  {
    ByteGrows(a, b, pos, x, y);
    hide ReadByte, Grows, SameEnd;
  }

  lemma TextGrows(header: byte, a: Input, b: Input, pos: nat, x: nat, y: nat)
    requires Grows(a, b) && pos <= |a.data| && SameEnd(a, x, y)
    ensures Settled(DecodeBody(header, a, pos, x), DecodeBody(header, b, pos, y))
  {
    UintGrows(a, b, pos, x, y);
    hide DecodeUint, Grows, SameEnd, ReadBody;
    var n := DecodeUint(a, pos, x);
    if n.Ok? {
      BodyGrows(a, b, n.pos, x, y, n.value);
    }
  }

  lemma TypedGrows(t: nat, a: Input, b: Input, pos: nat, x: nat, y: nat)
    requires Grows(a, b) && pos <= |a.data| && SameEnd(a, x, y)
    ensures Settled(DecodeTyped(t, a, pos, x), DecodeTyped(t, b, pos, y))
  {
    TypeGrows(a, b, pos, x, y);
    hide ReadType, Grows, SameEnd, DecodeBody;
    var h := ReadType(a, pos, x);
    if h.Ok? {
      TextGrows(h.value, a, b, h.pos, x, y);
    }
  }

  lemma ScalarGrows(header: byte, a: Input, b: Input, pos: nat, x: nat, y: nat)
    requires Grows(a, b) && pos <= |a.data| && SameEnd(a, x, y)
    ensures Settled(DecodeScalar(header, a, pos, x), DecodeScalar(header, b, pos, y))
  {
    UintGrows(a, b, pos, x, y);
    hide DecodeUint, Grows, SameEnd;
  }

  lemma FloatGrows(header: byte, a: Input, b: Input, pos: nat, x: nat, y: nat)
    requires Grows(a, b) && pos <= |a.data| && SameEnd(a, x, y)
    ensures Settled(DecodeFloat(header, a, pos, x), DecodeFloat(header, b, pos, y))
  {
    FullGrows(a, b, pos, x, y, 4, false);
    FullGrows(a, b, pos, x, y, 8, false);
    hide ReadFull, Grows, SameEnd, FromBE;
  }

  lemma {:induction false} AnyGrows(a: Input, b: Input, pos: nat, x: nat, y: nat)
    requires Grows(a, b) && pos <= |a.data| && SameEnd(a, x, y)
    ensures Settled(DecodeAny(a, pos, x), DecodeAny(b, pos, y))
    decreases |a.data| - pos, 0
  {
    TypeGrows(a, b, pos, x, y);
    hide Grows, SameEnd, ReadType, DecodeScalar, DecodeFloat, DecodeBody, DecodeArray, DecodeMap, DecodeStruct;
    var h := ReadType(a, pos, x);
    if h.Ok? {
      match h.value % 16
      case 1 => ScalarGrows(h.value, a, b, h.pos, x, y);
      case 3 => FloatGrows(h.value, a, b, h.pos, x, y);
      case 4 => TextGrows(h.value, a, b, h.pos, x, y);
      case 5 => TextGrows(h.value, a, b, h.pos, x, y);
      case 6 => ArrayGrows(h.value, a, b, h.pos, x, y);
      case 7 => MapGrows(h.value, a, b, h.pos, x, y);
      case 8 => StructGrows(a, b, h.pos, x, y);
      case _ =>
    }
  }

  lemma {:induction false} ArrayGrows(header: byte, a: Input, b: Input, pos: nat, x: nat, y: nat)
    requires Grows(a, b) && pos <= |a.data| && SameEnd(a, x, y)
    ensures Settled(DecodeArray(header, a, pos, x), DecodeArray(header, b, pos, y))
    decreases |a.data| - pos, 2
  {
    UintGrows(a, b, pos, x, y);
    hide Grows, SameEnd, DecodeUint, DecodeMany;
    var n := DecodeUint(a, pos, x);
    if n.Ok? {
      ManyGrows(a, b, n.pos, x, y, n.value);
    }
  }

  /** A list that starts with a value: its rest decides. */
  lemma ManyGoesOn(inp: Input, pos: nat, end: nat, n: nat)
    requires pos <= |inp.data| && n > 0 && DecodeAny(inp, pos, end).Ok?
    ensures var v := DecodeAny(inp, pos, end);
      var rest := DecodeMany(inp, v.pos, end, n - 1);
      DecodeMany(inp, pos, end, n) == Listed(v.value, rest)
  {
    hide DecodeAny;
  }

  lemma ManyStops(inp: Input, pos: nat, end: nat, n: nat)
    requires pos <= |inp.data| && n > 0 && DecodeAny(inp, pos, end).Err?
    ensures var v := DecodeAny(inp, pos, end);
      DecodeMany(inp, pos, end, n) == Err(v.error, v.pos)
  {
    hide DecodeAny;
  }

  lemma ManyNone(a: Input, b: Input, pos: nat, x: nat, y: nat)
    requires pos <= |a.data| && pos <= |b.data|
    ensures Settled(DecodeMany(a, pos, x, 0), DecodeMany(b, pos, y, 0))
  {
  }

  lemma {:induction false} ManyGrows(a: Input, b: Input, pos: nat, x: nat, y: nat, n: nat)
    requires Grows(a, b) && pos <= |a.data| && SameEnd(a, x, y)
    ensures Settled(DecodeMany(a, pos, x, n), DecodeMany(b, pos, y, n))
    decreases |a.data| - pos, 1
  {
    hide Grows, SameEnd, DecodeAny, DecodeMany, Listed, Settled;
    Longer(a, b);
    if n == 0 {
      ManyNone(a, b, pos, x, y);
    } else {
      AnyGrows(a, b, pos, x, y);
      var v, w := DecodeAny(a, pos, x), DecodeAny(b, pos, y);
      if v.Err? && v.error == WouldBlock {
        ManyStops(a, pos, x, n);
        Waits(DecodeMany(a, pos, x, n), DecodeMany(b, pos, y, n));
      } else {
        Final(v, w);
        if v.Ok? {
          ManyGrows(a, b, v.pos, x, y, n - 1);
          ManyGoesOn(a, pos, x, n);
          ManyGoesOn(b, pos, y, n);
          ListedSettles(v.value, DecodeMany(a, v.pos, x, n - 1), DecodeMany(b, v.pos, y, n - 1));
        } else {
          ManyStops(a, pos, x, n);
          ManyStops(b, pos, y, n);
          SameSettles(DecodeMany(a, pos, x, n), DecodeMany(b, pos, y, n));
        }
      }
    }
  }

  lemma {:induction false} MapGrows(header: byte, a: Input, b: Input, pos: nat, x: nat, y: nat)
    requires Grows(a, b) && pos <= |a.data| && SameEnd(a, x, y)
    ensures Settled(DecodeMap(header, a, pos, x), DecodeMap(header, b, pos, y))
    decreases |a.data| - pos, 2
  {
    UintGrows(a, b, pos, x, y);
    hide Grows, SameEnd, DecodeUint, DecodeMany;
    var m := DecodeUint(a, pos, x);
    if m.Ok? {
      UintGrows(a, b, m.pos, x, y);
      var n := DecodeUint(a, m.pos, x);
      if n.Ok? {
        ManyGrows(a, b, n.pos, x, y, n.value);
        var keys := DecodeMany(a, n.pos, x, n.value);
        if keys.Ok? {
          ManyGrows(a, b, keys.pos, x, y, n.value);
        }
      }
    }
  }

  lemma LimitGrows(a: Input, pos: nat, x: nat, y: nat, n: nat)
    requires pos <= |a.data| && SameEnd(a, x, y)
    ensures SameEnd(a, Limit(pos, x, n), Limit(pos, y, n))
  {
  }

  /** What comes of the fields, once the identifier is known. */
  function Known(known: set<bytes>, id: bytes, r: Res<map<int, Decoded>>): Res<Decoded> {
    if r.Err? then Err(r.error, r.pos) else if id in known then Ok(DStruct(id, r.value), r.pos) else Err(UnknownStruct, r.pos)
  }

  lemma KnownSettles(known: set<bytes>, id: bytes, r: Res<map<int, Decoded>>, s: Res<map<int, Decoded>>)
    requires Settled(r, s)
    ensures Settled(Known(known, id, r), Known(known, id, s))
  {
  }

  lemma StructStops(inp: Input, pos: nat, end: nat)
    requires pos <= |inp.data|
    ensures var id := DecodeTyped(4, inp, pos, end);
      && (id.Err? ==> DecodeStruct(inp, pos, end) == Err(id.error, id.pos))
      && (id.Ok? ==>
            var n := DecodeUint(inp, id.pos, end);
            n.Err? ==> DecodeStruct(inp, pos, end) == Err(n.error, n.pos))
  {
    hide DecodeTyped, DecodeUint, DecodeFields, Limit;
  }

  lemma StructGoesOn(inp: Input, pos: nat, end: nat)
    requires pos <= |inp.data| && DecodeTyped(4, inp, pos, end).Ok?
    requires DecodeUint(inp, DecodeTyped(4, inp, pos, end).pos, end).Ok?
    ensures var id := DecodeTyped(4, inp, pos, end);
      var n := DecodeUint(inp, id.pos, end);
      DecodeStruct(inp, pos, end) == Known(inp.known, id.value, DecodeFields(inp, n.pos, Limit(n.pos, end, n.value), map[]))
  {
    hide DecodeTyped, DecodeUint, DecodeFields, Limit;
  }

  lemma {:induction false} StructGrows(a: Input, b: Input, pos: nat, x: nat, y: nat)
    requires Grows(a, b) && pos <= |a.data| && SameEnd(a, x, y)
    ensures Settled(DecodeStruct(a, pos, x), DecodeStruct(b, pos, y))
    decreases |a.data| - pos, 2
  {
    assert a.known == b.known;
    hide Grows, SameEnd, DecodeUint, DecodeTyped, DecodeStruct, DecodeFields, Limit, Known, Settled;
    Longer(a, b);
    TypedGrows(4, a, b, pos, x, y);
    StructStops(a, pos, x);
    StructStops(b, pos, y);
    var id, id' := DecodeTyped(4, a, pos, x), DecodeTyped(4, b, pos, y);
    if id.Err? && id.error == WouldBlock {
      Waits(DecodeStruct(a, pos, x), DecodeStruct(b, pos, y));
    } else if Final(id, id'); id.Err? {
      SameSettles(DecodeStruct(a, pos, x), DecodeStruct(b, pos, y));
    } else {
      UintGrows(a, b, id.pos, x, y);
      var n, n' := DecodeUint(a, id.pos, x), DecodeUint(b, id.pos, y);
      if n.Err? && n.error == WouldBlock {
        Waits(DecodeStruct(a, pos, x), DecodeStruct(b, pos, y));
      } else if Final(n, n'); n.Err? {
        SameSettles(DecodeStruct(a, pos, x), DecodeStruct(b, pos, y));
      } else {
        var u, v := Limit(n.pos, x, n.value), Limit(n.pos, y, n.value);
        LimitGrows(a, n.pos, x, y, n.value);
        FieldsGrow(a, b, n.pos, u, v, map[]);
        StructGoesOn(a, pos, x);
        StructGoesOn(b, pos, y);
        KnownSettles(a.known, id.value, DecodeFields(a, n.pos, u, map[]), DecodeFields(b, n.pos, v, map[]));
      }
    }
  }

  lemma {:induction false} FieldsGrow(a: Input, b: Input, pos: nat, x: nat, y: nat, fields: map<int, Decoded>)
    requires Grows(a, b) && pos <= |a.data| && SameEnd(a, x, y)
    ensures Settled(DecodeFields(a, pos, x, fields), DecodeFields(b, pos, y, fields))
    decreases |a.data| - pos, 1
  {
    UintGrows(a, b, pos, x, y);
    hide Grows, SameEnd, DecodeUint, DecodeAny;
    var i := DecodeUint(a, pos, x);
    if i.Ok? {
      AnyGrows(a, b, i.pos, x, y);
      var v := DecodeAny(a, i.pos, x);
      if v.Ok? {
        FieldsGrow(a, b, v.pos, x, y, fields[AsInt(i.value) := v.value]);
      }
    }
  }

  // Messages.

  lemma Unlimited(a: Input, b: Input)
    requires Grows(a, b)
    ensures SameEnd(a, NoLimit(a), NoLimit(b))
  {
  }

  lemma U8Grows(a: Input, b: Input, pos: nat)
    requires Grows(a, b) && pos <= |a.data|
    ensures Settled(ReadU8(a, pos), ReadU8(b, pos))
  {
    Unlimited(a, b);
    FullGrows(a, b, pos, NoLimit(a), NoLimit(b), 1, false);
    hide ReadFull, Grows;
  }

  lemma U16Grows(a: Input, b: Input, pos: nat)
    requires Grows(a, b) && pos <= |a.data|
    ensures Settled(ReadU16(a, pos), ReadU16(b, pos))
  {
    Unlimited(a, b);
    FullGrows(a, b, pos, NoLimit(a), NoLimit(b), 2, false);
    hide ReadFull, Grows;
  }

  lemma BodiesGoOn(t: nat, inp: Input, pos: nat, n: nat)
    requires pos <= |inp.data| && n > 0 && DecodeTyped(t, inp, pos, NoLimit(inp)).Ok?
    ensures var s := DecodeTyped(t, inp, pos, NoLimit(inp));
      var rest := ReadBodies(t, inp, s.pos, n - 1);
      ReadBodies(t, inp, pos, n) == Listed(s.value, rest)
  {
    hide DecodeTyped;
  }

  lemma BodiesStop(t: nat, inp: Input, pos: nat, n: nat)
    requires pos <= |inp.data| && n > 0 && DecodeTyped(t, inp, pos, NoLimit(inp)).Err?
    ensures var s := DecodeTyped(t, inp, pos, NoLimit(inp));
      ReadBodies(t, inp, pos, n) == Err(s.error, s.pos)
  {
    hide DecodeTyped;
  }

  lemma BodiesNone(t: nat, a: Input, b: Input, pos: nat)
    requires pos <= |a.data| && pos <= |b.data|
    ensures Settled(ReadBodies(t, a, pos, 0), ReadBodies(t, b, pos, 0))
  {
  }

  lemma {:induction false} BodiesGrow(t: nat, a: Input, b: Input, pos: nat, n: nat)
    requires Grows(a, b) && pos <= |a.data|
    ensures Settled(ReadBodies(t, a, pos, n), ReadBodies(t, b, pos, n))
    decreases n
  {
    hide Grows, SameEnd, DecodeTyped, ReadBodies, Listed, Settled;
    Longer(a, b);
    if n == 0 {
      BodiesNone(t, a, b, pos);
    } else {
      Unlimited(a, b);
      TypedGrows(t, a, b, pos, NoLimit(a), NoLimit(b));
      var v, w := DecodeTyped(t, a, pos, NoLimit(a)), DecodeTyped(t, b, pos, NoLimit(b));
      if v.Err? && v.error == WouldBlock {
        BodiesStop(t, a, pos, n);
        Waits(ReadBodies(t, a, pos, n), ReadBodies(t, b, pos, n));
      } else {
        Final(v, w);
        if v.Ok? {
          BodiesGrow(t, a, b, v.pos, n - 1);
          BodiesGoOn(t, a, pos, n);
          BodiesGoOn(t, b, pos, n);
          ListedSettles(v.value, ReadBodies(t, a, v.pos, n - 1), ReadBodies(t, b, v.pos, n - 1));
        } else {
          BodiesStop(t, a, pos, n);
          BodiesStop(t, b, pos, n);
          SameSettles(ReadBodies(t, a, pos, n), ReadBodies(t, b, pos, n));
        }
      }
    }
  }

  lemma MetadataGrows(a: Input, b: Input, pos: nat)
    requires Grows(a, b) && pos <= |a.data|
    ensures Settled(ReadMetadata(a, pos), ReadMetadata(b, pos))
  {
    U16Grows(a, b, pos);
    hide Grows, ReadU16, ReadBodies;
    var n := ReadU16(a, pos);
    if n.Ok? {
      BodiesGrow(4, a, b, n.pos, n.value);
      var keys := ReadBodies(4, a, n.pos, n.value);
      if keys.Ok? {
        BodiesGrow(5, a, b, keys.pos, n.value);
      }
    }
  }

  lemma ParamsGrow(a: Input, b: Input, pos: nat)
    requires Grows(a, b) && pos <= |a.data|
    ensures Settled(ReadParams(a, pos), ReadParams(b, pos))
  {
    U16Grows(a, b, pos);
    Unlimited(a, b);
    hide Grows, ReadU16, DecodeMany;
    var n := ReadU16(a, pos);
    if n.Ok? {
      ManyGrows(a, b, n.pos, NoLimit(a), NoLimit(b), n.value);
    }
  }

  lemma TrailerGrows(a: Input, b: Input, pos: nat)
    requires Grows(a, b) && pos <= |a.data|
    ensures Settled(ReadTrailer(a, pos), ReadTrailer(b, pos))
  {
    U8Grows(a, b, pos);
    hide Grows, ReadU8, ReadMetadata, ReadParams;
    var f := ReadU8(a, pos);
    if f.Ok? {
      MetadataGrows(a, b, f.pos);
      var meta := ReadMetadata(a, f.pos);
      if meta.Ok? {
        ParamsGrow(a, b, meta.pos);
      }
    }
  }

  lemma RequestGrows(a: Input, b: Input, pos: nat)
    requires Grows(a, b) && pos <= |a.data|
    ensures Settled(ReadRequest(a, pos), ReadRequest(b, pos))
  {
    Unlimited(a, b);
    TypedGrows(4, a, b, pos, NoLimit(a), NoLimit(b));
    hide Grows, DecodeTyped, ReadTrailer;
    var service := DecodeTyped(4, a, pos, NoLimit(a));
    if service.Ok? {
      TypedGrows(4, a, b, service.pos, NoLimit(a), NoLimit(b));
      var name := DecodeTyped(4, a, service.pos, NoLimit(a));
      if name.Ok? {
        TrailerGrows(a, b, name.pos);
      }
    }
  }

  lemma ResponseContent(a: Input, b: Input, pos: nat)
    requires Grows(a, b) && pos <= |a.data|
    ensures Settled(Messages.ReadResponse(a, pos), Messages.ReadResponse(b, pos))
  {
    hide Grows, ReadTrailer, ReadU16;
    U16Grows(a, b, pos);
    var s := ReadU16(a, pos);
    if s.Ok? {
      TrailerGrows(a, b, s.pos);
    }
  }

  lemma ErrorContent(a: Input, b: Input, pos: nat)
    requires Grows(a, b) && pos <= |a.data|
    ensures Settled(ReadStreamError(a, pos), ReadStreamError(b, pos))
  {
    hide Grows, ReadMetadata, ReadU16;
    U16Grows(a, b, pos);
    var s := ReadU16(a, pos);
    if s.Ok? {
      MetadataGrows(a, b, s.pos);
    }
  }

  lemma ContentGrows(k: nat, a: Input, b: Input, pos: nat)
    requires Grows(a, b) && pos <= |a.data| && 1 <= k <= 7
    ensures Settled(ReadContent(k, a, pos), ReadContent(k, b, pos))
  {
    Unlimited(a, b);
    Longer(a, b);
    hide Grows, SameEnd, DecodeAny, ReadMetadata, ReadRequest, Messages.ReadResponse, ReadStreamError;
    match k
    case 1 => RequestGrows(a, b, pos);
    case 2 => ResponseContent(a, b, pos);
    case 4 => AnyGrows(a, b, pos, NoLimit(a), NoLimit(b));
    case 5 => MetadataGrows(a, b, pos);
    case 7 => ErrorContent(a, b, pos);
    case _ =>
  }

  lemma MessageGrows(a: Input, b: Input, pos: nat)
    requires Grows(a, b) && pos <= |a.data|
    ensures Settled(ReadMessage(a, pos), ReadMessage(b, pos)) && Settled(ReadExpected(2, a, pos), ReadExpected(2, b, pos))
  {
    U8Grows(a, b, pos);
    hide Grows, ReadU8, ReadContent;
    var k := ReadU8(a, pos);
    if k.Ok? && 1 <= k.value <= 7 {
      ContentGrows(k.value, a, b, k.pos);
    }
  }

  // Calls.

  /** Answered for good; or waiting, and then going on from here is as good as starting later. */
  ghost predicate Resumes(r: Received, b: Input, s: Received) {
    if r.result.Waiting? then r.pos <= |b.data| && Recv(r.ctx, b, r.pos) == s else r == s
  }

  /** What RecvItem makes of a message, metadata apart. */
  function Judged(c: Ctx, m: Message<Decoded>, p: nat): Received {
    match m
    case StreamItem(v) => Received(Item(v), c, p)
    case EndStream => Received(Failed(StreamEnded), c.(recvError := Some(StreamEnded)), p)
    case StreamError(s, meta) => Received(Failed(PeerError(s, meta)), c.(recvError := Some(PeerError(s, meta))), p)
    case _ => Received(Failed(Unexpected), c.(err := Some(Unexpected)), p)
  }

  lemma ItemStep(c: Ctx, inp: Input, pos: nat)
    requires pos <= |inp.data|
    ensures var m := ReadMessage(inp, pos);
      && (m.Err? ==> RecvItem(c, inp, pos) == Unread(c, pos, m.error, m.pos))
      && (m.Ok? && m.value.StreamMetadata? ==> RecvItem(c, inp, pos) == RecvItem(c.(meta := m.value.meta), inp, m.pos))
      && (m.Ok? && !m.value.StreamMetadata? ==> RecvItem(c, inp, pos) == Judged(c, m.value, m.pos))
  {
    hide ReadMessage;
  }

  /** It has begun, and is to go on. */
  predicate Underway(c: Ctx) { c.hasRecv && c.err.None? && c.recvError.None? && c.recvStarted }

  lemma UnderwayRecv(c: Ctx, inp: Input, pos: nat)
    requires Underway(c) && pos <= |inp.data|
    ensures Recv(c, inp, pos) == RecvItem(c, inp, pos)
  {
    hide RecvItem;
  }

  lemma JudgedNow(c: Ctx, m: Message<Decoded>, p: nat)
    ensures !Judged(c, m, p).result.Waiting?
  {
  }

  lemma {:induction false} ItemGrows(c: Ctx, a: Input, b: Input, pos: nat)
    requires Grows(a, b) && pos <= |a.data| && Underway(c)
    ensures Resumes(RecvItem(c, a, pos), b, RecvItem(c, b, pos))
    decreases |a.data| - pos
  {
    MessageGrows(a, b, pos);
    Longer(a, b);
    ItemStep(c, a, pos);
    ItemStep(c, b, pos);
    UnderwayRecv(c, b, pos);
    hide Grows, ReadMessage, RecvItem, Recv, Judged;
    var m := ReadMessage(a, pos);
    if m.Ok? {
      if m.value.StreamMetadata? {
        ItemGrows(c.(meta := m.value.meta), a, b, m.pos);
      } else {
        JudgedNow(c, m.value, m.pos);
      }
    }
  }

  lemma Longer(a: Input, b: Input)
    requires Grows(a, b)
    ensures |a.data| <= |b.data|
  {
  }

  /** A Recv that has yet to see the start of the stream. */
  lemma FirstStep(c: Ctx, inp: Input, pos: nat)
    requires pos <= |inp.data| && c.hasRecv && c.err.None? && c.recvError.None? && !c.recvStarted
    ensures var m := ReadMessage(inp, pos);
      && (m.Err? ==> Recv(c, inp, pos) == Unread(c, pos, m.error, m.pos))
      && (m.Ok? && m.value.StartStream? ==> Recv(c, inp, pos) == RecvItem(c.(recvStarted := true), inp, m.pos))
      && (m.Ok? && !m.value.StartStream? ==> Recv(c, inp, pos) == Received(Failed(Unexpected), c.(err := Some(Unexpected)), m.pos))
  {
    hide ReadMessage, RecvItem;
  }

  lemma FirstGrows(c: Ctx, a: Input, b: Input, pos: nat)
    requires Grows(a, b) && pos <= |a.data| && c.hasRecv && c.err.None? && c.recvError.None? && !c.recvStarted
    ensures pos <= |b.data| && Resumes(Recv(c, a, pos), b, Recv(c, b, pos))
  {
    MessageGrows(a, b, pos);
    Longer(a, b);
    FirstStep(c, a, pos);
    FirstStep(c, b, pos);
    hide Grows, ReadMessage, RecvItem, Recv;
    var m := ReadMessage(a, pos);
    if m.Ok? && m.value.StartStream? {
      ItemGrows(c.(recvStarted := true), a, b, m.pos);
    }
  }

  /** Whatever has arrived by the time of a call of Recv, and whatever arrives later. */
  lemma RecvGrows(c: Ctx, a: Input, b: Input, pos: nat)
    requires Grows(a, b) && pos <= |a.data|
    ensures pos <= |b.data| && Resumes(Recv(c, a, pos), b, Recv(c, b, pos))
  {
    Longer(a, b);
    if c.hasRecv && c.err.None? && c.recvError.None? {
      hide Grows, Recv, RecvItem;
      if c.recvStarted {
        UnderwayRecv(c, a, pos);
        UnderwayRecv(c, b, pos);
        ItemGrows(c, a, b, pos);
      } else {
        FirstGrows(c, a, b, pos);
      }
    }
  }

  /** The same of ReadResponse, which waits where it started. */
  lemma ResponseGrows(c: Ctx, a: Input, b: Input, pos: nat)
    requires Grows(a, b) && pos <= |a.data|
    ensures pos <= |b.data|
    ensures var r := TakeResponse(c, a, pos);
      if r.result.Waiting? then r == Received(Waiting, c, pos) else r == TakeResponse(c, b, pos)
  {
    Longer(a, b);
    MessageGrows(a, b, pos);
    hide Grows, ReadExpected, ReadMessage;
  }

  // The pair.

  lemma {:induction false} EndsMore(pos: nat, taken: seq<bytes>, more: seq<bytes>)
    ensures Ends(pos, taken + more) == Ends(pos, taken) + Ends(pos + |Flat(taken)|, more)
    decreases |taken|
  {
    if taken == [] {
      assert taken + more == more;
    } else {
      assert (taken + more)[1..] == taken[1..] + more && (taken + more)[0] == taken[0];
      EndsMore(pos + |taken[0]|, taken[1..], more);
    }
  }

  lemma {:induction false} EndsRange(pos: nat, blocks: seq<bytes>)
    ensures forall c :: c in Ends(pos, blocks) ==> pos <= c
    ensures blocks != [] ==> pos + |Flat(blocks)| in Ends(pos, blocks)
    decreases |blocks|
  {
    if blocks != [] {
      EndsRange(pos + |blocks[0]|, blocks[1..]);
      if blocks[1..] == [] {
        assert Flat(blocks) == blocks[0] + [];
      }
    }
  }

  /** Blocks that have arrived, and further ones. */
  lemma BlocksGrow(taken: seq<bytes>, more: seq<bytes>, tail: Error, known: set<bytes>)
    requires NonEmpty(more)
    ensures Grows(FromBlocks(taken, WouldBlock, known), FromBlocks(taken + more, tail, known))
  {
    var n := |Flat(taken)|;
    FlatConcat(taken, more);
    EndsMore(0, taken, more);
    EndsRange(0, taken);
    EndsRange(n, more);
    hide Ends, Flat;
  }

  /** Deliveries add to what has been accepted, until the end has. */
  lemma StepAccepts(p: Pair, s: Step)
    requires Calm(p)
    ensures var q := Next(p, s);
      p.y.taken <= q.y.taken && (p.y.ended ==> q.y.ended && q.y.taken == p.y.taken)
  {
    CalmFacts(p);
    hide Calm, WriteCall, CloseCall, ResetCall, Handle, ReadOutcome, AfterRead, Full, Countable;
  }

  lemma {:induction false} RunAccepts(p: Pair, steps: seq<Step>)
    requires Calm(p) && forall s :: s in steps ==> Gentle(s)
    ensures var q := Run(p, steps);
      p.y.taken <= q.y.taken && (p.y.ended ==> q.y.ended && q.y.taken == p.y.taken)
    decreases |steps|
  {
    hide Calm, Next;
    if steps != [] {
      StepAccepts(p, steps[0]);
      CalmNext(p, steps[0]);
      RunAccepts(Next(p, steps[0]), steps[1..]);
    }
  }

  /** What the receiving end can read at the moment. */
  ghost function Arrived(p: Pair, known: set<bytes>): Input { Incoming(p.y.ep, p.y.taken, |p.y.read|, known) }

  lemma ArrivedIs(p: Pair, known: set<bytes>)
    requires Calm(p)
    ensures Arrived(p, known) == FromBlocks(p.y.taken, if p.y.ended then ClosedStream else WouldBlock, known)
  {
    CalmFacts(p);
    hide Calm, FromBlocks;
  }

  lemma RunGrows(p: Pair, q: Pair, known: set<bytes>)
    requires Calm(p) && Calm(q) && Track(q.x, q.y)
    requires p.y.taken <= q.y.taken && (p.y.ended ==> q.y.ended && q.y.taken == p.y.taken)
    ensures Grows(Arrived(p, known), Arrived(q, known))
  {
    hide Calm, Arrived, Stands, Marks, FromBlocks;
    ArrivedIs(p, known);
    ArrivedIs(q, known);
    if p.y.ended {
      SameGrows(Arrived(p, known));
    } else {
      var more := q.y.taken[|p.y.taken|..];
      assert q.y.taken == p.y.taken + more;
      BlocksGrow(p.y.taken, more, if q.y.ended then ClosedStream else WouldBlock, known);
    }
  }

  lemma SameGrows(a: Input)
    ensures Grows(a, a)
  {
  }

  /**
   * In every run without resets, whatever has been written, in whatever pieces, and wherever the client
   * stands: a Recv that answers now answers what it would answer at any later moment of the run; one
   * that waits, waits in a context from which, later, it answers what it would have answered had it been
   * called then. The same of ReadResponse.
   */
  lemma NoCallTooEarly(steps: seq<Step>, later: seq<Step>, c: Ctx, pos: nat, known: set<bytes>)
    requires forall s :: s in steps + later ==> Gentle(s)
    requires pos <= |Arrived(Run(Start, steps), known).data|
    ensures var p := Run(Start, steps);
      var a, b := Arrived(p, known), Arrived(Run(p, later), known);
      && pos <= |b.data| && Resumes(Recv(c, a, pos), b, Recv(c, b, pos))
      && var r := TakeResponse(c, a, pos);
         if r.result.Waiting? then r == Received(Waiting, c, pos) else r == TakeResponse(c, b, pos)
  {
    hide Calm, Track, Run, Arrived, Grows, Resumes, Recv, TakeResponse, Gentle;
    forall s | s in steps
      ensures Gentle(s)
    {
      assert s in steps + later;
    }
    forall s | s in later
      ensures Gentle(s)
    {
      assert s in steps + later;
    }
    StartCalm();
    StartTracked();
    TrackRun(Start, steps);
    var p := Run(Start, steps);
    TrackRun(p, later);
    RunAccepts(p, later);
    RunGrows(p, Run(p, later), known);
    RecvGrows(c, Arrived(p, known), Arrived(Run(p, later), known), pos);
    ResponseGrows(c, Arrived(p, known), Arrived(Run(p, later), known), pos);
  }
}
