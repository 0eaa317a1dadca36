/**
 * The codec's laws: decoding inverts encoding, consumes exactly it, and does so however
 * the bytes were cut into blocks, as long as no cut falls strictly inside a body.
 */
module Codec {
  import opened Base
  import opened Readers
  import opened Varint
  import opened Scalars
  import opened Sorting
  import opened Values
  import opened Decoder

  /** No block ends strictly inside a body of the pieces laid out from `pos`. */
  ghost predicate WholeBodies(cuts: set<nat>, pos: nat, ps: seq<Piece>)
    decreases |ps|
  {
    ps != [] ==>
      && (ps[0].body ==> Whole(cuts, pos, |ps[0].bs|))
      && WholeBodies(cuts, pos + |ps[0].bs|, ps[1..])
  }

  /** The joined pieces are in the input at `pos`, before `end`, their bodies whole. */
  ghost predicate Laid(inp: Input, pos: nat, end: nat, ps: seq<Piece>) {
    && At(inp.data, pos, Join(ps))
    && pos + |Join(ps)| <= end
    && WholeBodies(inp.cuts, pos, ps)
  }

  lemma {:induction false} WholeConcat(cuts: set<nat>, pos: nat, a: seq<Piece>, b: seq<Piece>)
    ensures WholeBodies(cuts, pos, a + b)
       <==> WholeBodies(cuts, pos, a) && WholeBodies(cuts, pos + |Join(a)|, b)
    decreases |a|
  {
    if a == [] {
      assert a + b == b;
    } else {
      assert (a + b)[1..] == a[1..] + b;
      WholeConcat(cuts, pos + |a[0].bs|, a[1..], b);
    }
  }

  lemma LaidConcat(inp: Input, pos: nat, end: nat, a: seq<Piece>, b: seq<Piece>)
    ensures |Join(a + b)| == |Join(a)| + |Join(b)|
    ensures Laid(inp, pos, end, a + b)
       <==> Laid(inp, pos, end, a) && Laid(inp, pos + |Join(a)|, end, b)
  {
    JoinConcat(a, b);
    AtConcat(inp.data, pos, Join(a), Join(b));
    WholeConcat(inp.cuts, pos, a, b);
  }

  lemma LaidHead(inp: Input, pos: nat, end: nat, ps: seq<Piece>)
    requires ps != []
    ensures |Join(ps)| == |ps[0].bs| + |Join(ps[1..])|
    ensures Laid(inp, pos, end, ps)
       <==> && At(inp.data, pos, ps[0].bs) && pos + |ps[0].bs| <= end
            && (ps[0].body ==> Whole(inp.cuts, pos, |ps[0].bs|))
            && Laid(inp, pos + |ps[0].bs|, end, ps[1..])
  {
    hide At, Whole;
    AtConcat(inp.data, pos, ps[0].bs, Join(ps[1..]));
  }

  lemma LaidSingle(inp: Input, pos: nat, end: nat, p: Piece)
    ensures Join([p]) == p.bs
    ensures Laid(inp, pos, end, [p])
       <==> At(inp.data, pos, p.bs) && pos + |p.bs| <= end && (p.body ==> Whole(inp.cuts, pos, |p.bs|))
  {
    hide Laid, At, Whole;
    LaidHead(inp, pos, end, [p]);
    assert [p][1..] == [];
    LaidNone(inp, pos + |p.bs|, end);
    if At(inp.data, pos, p.bs) {
      AtInside(inp.data, pos, p.bs);
    }
  }

  lemma AtInside(data: bytes, pos: nat, bs: bytes)
    requires At(data, pos, bs)
    ensures pos + |bs| <= |data|
  {
  }

  lemma LaidNone(inp: Input, pos: nat, end: nat)
    ensures Laid(inp, pos, end, []) <==> pos <= |inp.data| && pos <= end
  {
  }

  /** A one-byte header in front of everything else. */
  lemma LaidHeader(inp: Input, pos: nat, end: nat, h: byte, ps: seq<Piece>)
    requires Laid(inp, pos, end, [Plain([h])] + ps)
    ensures |Join([Plain([h])] + ps)| == 1 + |Join(ps)|
    ensures pos < |inp.data| && pos < end && inp.data[pos] == h
    ensures Laid(inp, pos + 1, end, ps)
  {
    hide Laid, Join, At;
    LaidConcat(inp, pos, end, [Plain([h])], ps);
    LaidSingle(inp, pos, end, Plain([h]));
    AtHead(inp.data, pos, [h]);
  }

  /** A varint in front of everything else. */
  lemma LaidVarint(inp: Input, pos: nat, end: nat, n: nat, ps: seq<Piece>)
    requires n < TWO_64 && Laid(inp, pos, end, [Plain(EncodeUint(n))] + ps)
    ensures |Join([Plain(EncodeUint(n))] + ps)| == |EncodeUint(n)| + |Join(ps)|
    ensures pos + |EncodeUint(n)| <= |inp.data|
    ensures DecodeUint(inp, pos, end) == Ok(n, pos + |EncodeUint(n)|)
    ensures Laid(inp, pos + |EncodeUint(n)|, end, ps)
  {
    var p := Plain(EncodeUint(n));
    hide Laid, Join, DecodeUint, EncodeUint;
    LaidConcat(inp, pos, end, [p], ps);
    LaidSingle(inp, pos, end, p);
    DecodeUintInverts(inp, pos, end, n);
  }

  /** The dispatch of DecodeAny, one equation per type. */
  lemma Dispatch(inp: Input, pos: nat, end: nat)
    requires pos < |inp.data| && pos < end
    ensures var h, r, p := inp.data[pos], DecodeAny(inp, pos, end), pos + 1;
      var scalar, body := DecodeScalar(h, inp, p, end), DecodeBody(h, inp, p, end);
      && (h % 16 == 0 ==> r == Ok(DVoid, p))
      && (h % 16 == 1 && scalar.Ok? ==> r == Ok(DInt(scalar.value.magnitude), scalar.pos))
      && (h % 16 == 2 ==> r == Ok(DBool(Bit(h, TRUE)), p))
      && (h % 16 == 3 ==> r == DecodeFloat(h, inp, p, end))
      && (h % 16 == 4 && body.Ok? ==> r == Ok(DStr(body.value), body.pos))
      && (h % 16 == 5 && body.Ok? ==> r == Ok(DBytes(body.value), body.pos))
      && (h % 16 == 6 ==> r == DecodeArray(h, inp, p, end))
      && (h % 16 == 7 ==> r == DecodeMap(h, inp, p, end))
      && (h % 16 == 8 ==> r == DecodeStruct(inp, p, end))
  {
    hide ReadByte, DecodeScalar, DecodeBody, DecodeFloat, DecodeArray, DecodeMap, DecodeStruct, Bit;
  }

  // The branches of the decoder as rules: what the parts give, the whole gives.

  lemma ArrayRule(inp: Input, pos: nat, end: nat, n: nat, p: nat, items: seq<Decoded>, q: nat)
    requires pos < p <= |inp.data| && pos < end && inp.data[pos] == 6
    requires DecodeUint(inp, pos + 1, end) == Ok(n, p) && DecodeMany(inp, p, end, n) == Ok(items, q)
    ensures DecodeAny(inp, pos, end) == Ok(DArray(items), q)
  {
    hide DecodeAny, DecodeUint, DecodeMany;
    Dispatch(inp, pos, end);
  }

  lemma MapRule(inp: Input, pos: nat, end: nat, total: nat, p: nat, n: nat, q: nat,
                keys: seq<Decoded>, s: nat, values: seq<Decoded>, t: nat)
    requires pos < p <= q <= s <= |inp.data| && pos < end && inp.data[pos] == 7
    requires DecodeUint(inp, pos + 1, end) == Ok(total, p) && DecodeUint(inp, p, end) == Ok(n, q)
    requires DecodeMany(inp, q, end, n) == Ok(keys, s) && DecodeMany(inp, s, end, n) == Ok(values, t)
    ensures DecodeAny(inp, pos, end) == Ok(DMap(keys, values), t)
  {
    hide DecodeAny, DecodeUint, DecodeMany;
    Dispatch(inp, pos, end);
  }

  lemma StructRule(inp: Input, pos: nat, end: nat, id: bytes, p: nat, n: nat, q: nat,
                   fields: map<int, Decoded>, t: nat)
    requires pos < p <= q <= |inp.data| && pos < end && inp.data[pos] == 8 && id in inp.known
    requires DecodeTyped(4, inp, pos + 1, end) == Ok(id, p) && DecodeUint(inp, p, end) == Ok(n, q)
    requires n <= MAX_INT && q + n <= end && DecodeFields(inp, q, q + n, map[]) == Ok(fields, t)
    ensures DecodeAny(inp, pos, end) == Ok(DStruct(id, fields), t)
  {
    hide DecodeAny, DecodeUint, DecodeTyped, DecodeFields;
    Dispatch(inp, pos, end);
  }

  lemma FieldRule(inp: Input, pos: nat, end: nat, i: nat, p: nat, v: Decoded, q: nat, m: map<int, Decoded>)
    requires pos < p <= q <= |inp.data|
    requires DecodeUint(inp, pos, end) == Ok(i, p) && DecodeAny(inp, p, end) == Ok(v, q)
    ensures DecodeFields(inp, pos, end, m) == DecodeFields(inp, q, end, m[AsInt(i) := v])
  {
    hide DecodeUint, DecodeAny;
  }

  lemma FieldsEnd(inp: Input, end: nat, m: map<int, Decoded>)
    requires end <= |inp.data|
    ensures DecodeFields(inp, end, end, m) == Ok(m, end)
  {
    hide DecodeAny;
  }

  // One kind of value at a time.

  lemma BodyDecodes(inp: Input, pos: nat, end: nat, t: nat, s: bytes)
    requires t <= 8 && |s| <= MAX_INT && Laid(inp, pos, end, BodyPieces(t, s))
    ensures pos < |inp.data| && pos < end && inp.data[pos] % 16 == t
    ensures DecodeBody(inp.data[pos], inp, pos + 1, end) == Ok(s, pos + |Join(BodyPieces(t, s))|)
    ensures DecodeTyped(t, inp, pos, end) == Ok(s, pos + |Join(BodyPieces(t, s))|)
  {
    hide Laid, Join, EncodeUint, DecodeUint, ReadBody, ReadByte, Whole, At;
    if s == [] {
      assert BodyPieces(t, s) == [Plain([t + EMPTY])] + [];
      LaidHeader(inp, pos, end, t + EMPTY, []);
      JoinNil();
    } else {
      var body := Piece(s, true);
      var ps := [Plain(EncodeUint(|s|))] + [body];
      assert BodyPieces(t, s) == [Plain([t])] + ps;
      LaidHeader(inp, pos, end, t, ps);
      LaidVarint(inp, pos + 1, end, |s|, [body]);
      LaidSingle(inp, pos + 1 + |EncodeUint(|s|)|, end, body);
      ReadBodyWhole(inp, pos + 1 + |EncodeUint(|s|)|, end, s);
    }
  }

  lemma JoinNil()
    ensures Join([]) == []
  {
  }

  lemma FloatDecodes(inp: Input, pos: nat, end: nat, bits: nat, wide: bool)
    requires bits < (if wide then TWO_64 else TWO_32)
    requires Laid(inp, pos, end, FloatPieces(bits, wide))
    ensures pos < |inp.data| && pos < end && inp.data[pos] % 16 == 3
    ensures DecodeFloat(inp.data[pos], inp, pos + 1, end)
         == Ok(DFloat(wide, NormFloat(bits, if wide then NEG_ZERO_64 else NEG_ZERO_32)),
               pos + |Join(FloatPieces(bits, wide))|)
  {
    hide Laid, Join, BE, FromBE, ReadFull;
    var h := 3 + (if wide then WIDE else 0);
    var ps := FloatPieces(bits, wide);
    if |ps| == 1 {
      assert ps == [Plain([h + FLOAT_ZERO])] + [];
      LaidHeader(inp, pos, end, h + FLOAT_ZERO, []);
      JoinNil();
    } else {
      var p := Plain(BE(bits, if wide then 8 else 4));
      assert ps == [Plain([h])] + [p];
      LaidHeader(inp, pos, end, h, [p]);
      LaidSingle(inp, pos + 1, end, p);
      FloatBits(bits, wide);
    }
  }

  lemma FloatBits(bits: nat, wide: bool)
    requires bits < (if wide then TWO_64 else TWO_32)
    ensures FromBE(BE(bits, if wide then 8 else 4)) == bits
  {
    assert Pow2(8) == 256;
    hide Pow2, BE, FromBE;
    Pow2At64();
    Pow2Sum(8, 8);
    Pow2Sum(16, 16);
    BERoundTrip(bits, if wide then 8 else 4);
  }

  lemma SmallBody(t: nat, s: bytes)
    requires t <= 8
    ensures |s| <= |Join(BodyPieces(t, s))|
  {
    var ps := BodyPieces(t, s);
    if s != [] {
      assert ps == ps[..2] + [ps[2]];
      hide EncodeUint;
      JoinConcat(ps[..2], [ps[2]]);
      JoinHead([ps[2]]);
    }
  }

  // The mutual induction.

  /** What the induction establishes of one value in one place. */
  ghost predicate Decodes(v: Value, inp: Input, pos: nat, end: nat)
    requires pos <= |inp.data|
  {
    DecodeAny(inp, pos, end) == Ok(Norm(v), pos + |Enc(v)|)
  }

  ghost predicate Sendable(v: Value, known: set<bytes>) {
    Valid(v) && Registered(v, known) && |Enc(v)| <= MAX_INT
  }

  /**
   * Every valid value whose structs are registered decodes, at any place and under any
   * limit it fits, to its normal form, and the reader ends exactly behind its encoding.
   */
  lemma {:induction false} RoundTrip(v: Value, inp: Input, pos: nat, end: nat)
    requires Sendable(v, inp.known)
    requires Laid(inp, pos, end, Pieces(v))
    ensures pos <= |inp.data|
    ensures DecodeAny(inp, pos, end) == Ok(Norm(v), pos + |Enc(v)|)
    decreases v, 1
  {
    match v
    case Array(items) => ArrayRoundTrip(v, inp, pos, end);
    case Map(keys, values) => MapRoundTrip(v, inp, pos, end);
    case Struct(id, fields) => StructRoundTrip(v, inp, pos, end);
    case _ => LeafRoundTrip(v, inp, pos, end);
  }

  lemma LeafRoundTrip(v: Value, inp: Input, pos: nat, end: nat)
    requires !v.Array? && !v.Map? && !v.Struct? && Sendable(v, inp.known)
    requires Laid(inp, pos, end, Pieces(v))
    ensures pos <= |inp.data| && Decodes(v, inp, pos, end)
  {
    hide Laid, Join, DecodeAny, DecodeScalar, DecodeBody, DecodeFloat, DecodeTyped, BodyPieces, FloatPieces,
      ScalarBytes, IntKind.Holds, At, DecodeArray, DecodeMap, DecodeStruct;
    match v {
    case Float32(bits) => FloatDecodes(inp, pos, end, bits, false);
    case Float64(bits) => FloatDecodes(inp, pos, end, bits, true);
    case Str(s) =>
      SmallBody(4, s);
      BodyDecodes(inp, pos, end, 4, s);
    case Bytes(b) =>
      SmallBody(5, b);
      BodyDecodes(inp, pos, end, 5, b);
    case Int(k, n) =>
      LaidSingle(inp, pos, end, Plain(ScalarBytes(k, n)));
      AtHead(inp.data, pos, ScalarBytes(k, n));
      ScalarDecodes(inp, pos, end, k, n);
    case Bool(b) =>
      assert Pieces(v) == [Plain([2 + (if b then TRUE else 0)])] + [];
      LaidHeader(inp, pos, end, 2 + (if b then TRUE else 0), []);
    case Void =>
      assert Pieces(v) == [Plain([0])] + [];
      LaidHeader(inp, pos, end, 0, []);
    }
    JoinNil();
    Dispatch(inp, pos, end);
  }

  lemma {:induction false} ManyRoundTrip(items: seq<Value>, inp: Input, pos: nat, end: nat)
    requires AllSendable(items, inp.known) && |Join(PiecesAll(items))| <= MAX_INT
    requires Laid(inp, pos, end, PiecesAll(items))
    ensures pos <= |inp.data|
    ensures DecodeMany(inp, pos, end, |items|) == Ok(NormAll(items), pos + |Join(PiecesAll(items))|)
    decreases items
  {
    hide Laid, Join, At, DecodeAny, Norm, Pieces, Valid, Registered;
    LaidInside(inp, pos, end, PiecesAll(items));
    if items == [] {
      JoinNil();
    } else {
      LaidConcat(inp, pos, end, Pieces(items[0]), PiecesAll(items[1..]));
      RoundTrip(items[0], inp, pos, end);
      ManyRoundTrip(items[1..], inp, pos + |Enc(items[0])|, end);
    }
  }

  lemma LaidInside(inp: Input, pos: nat, end: nat, ps: seq<Piece>)
    requires Laid(inp, pos, end, ps)
    ensures pos + |Join(ps)| <= |inp.data| && pos + |Join(ps)| <= end
  {
  }

  ghost predicate AllSendable(items: seq<Value>, known: set<bytes>) {
    forall x :: x in items ==> Valid(x) && Registered(x, known)
  }

  lemma ArrayParts(v: Value, known: set<bytes>)
    requires v.Array? && Sendable(v, known)
    ensures AllSendable(v.items, known)
    ensures v.items == [] ==> Pieces(v) == [Plain([6 + EMPTY])] + [] && Norm(v) == DArray([])
    ensures v.items != [] ==>
      Pieces(v) == [Plain([6])] + ([Plain(EncodeUint(|v.items|))] + PiecesAll(v.items))
    ensures Norm(v) == DArray(NormAll(v.items))
  {
    hide Join, EncodeUint, PiecesAll, NormAll;
    NormAllLength(v.items);
  }

  lemma {:induction false} ArrayRoundTrip(v: Value, inp: Input, pos: nat, end: nat)
    requires v.Array? && Sendable(v, inp.known)
    requires Laid(inp, pos, end, Pieces(v))
    ensures pos <= |inp.data| && Decodes(v, inp, pos, end)
    decreases v, 0
  {
    hide *;
    ArrayParts(v, inp.known);
    if v.items == [] {
      EmptyRoundTrip(v, inp, pos, end, 6, DArray([]));
    } else {
      var items, ps, count := v.items, PiecesAll(v.items), Plain(EncodeUint(|v.items|));
      LaidSizes(v, inp, pos, end);
      LaidHeader(inp, pos, end, 6, [count] + ps);
      CountWithinItems(items, inp.known);
      JoinConcat([count], ps);
      LaidVarint(inp, pos + 1, end, |items|, ps);
      var q := pos + 1 + |EncodeUint(|items|)|;
      ManyRoundTrip(items, inp, q, end);
      ArrayRule(inp, pos, end, |items|, q, NormAll(items), pos + |Enc(v)|);
      DecodesIf(v, inp, pos, end);
    }
  }

  lemma EmptyRoundTrip(v: Value, inp: Input, pos: nat, end: nat, t: nat, d: Decoded)
    requires (t == 6 && d == DArray([])) || (t == 7 && d == DMap([], []))
    requires Pieces(v) == [Plain([t + EMPTY])] + [] && Norm(v) == d
    requires Laid(inp, pos, end, Pieces(v))
    ensures pos <= |inp.data| && Decodes(v, inp, pos, end)
  {
    hide Laid, Join, DecodeAny, Pieces, Norm, DecodeMany, DecodeUint, DecodeStruct, DecodeBody, DecodeScalar,
      DecodeFloat;
    LaidHeader(inp, pos, end, t + EMPTY, []);
    JoinNil();
    Dispatch(inp, pos, end);
  }

  lemma DecodesIf(v: Value, inp: Input, pos: nat, end: nat)
    requires pos <= |inp.data| && DecodeAny(inp, pos, end) == Ok(Norm(v), pos + |Enc(v)|)
    ensures Decodes(v, inp, pos, end)
  {
  }

  lemma LaidSizes(v: Value, inp: Input, pos: nat, end: nat)
    requires Sendable(v, inp.known) && Laid(inp, pos, end, Pieces(v))
    ensures |Join(Pieces(v))| == |Enc(v)| <= MAX_INT < TWO_64
    ensures pos + |Enc(v)| <= |inp.data| && pos + |Enc(v)| <= end
  {
    hide Join, Pieces, At;
    LaidInside(inp, pos, end, Pieces(v));
  }

  lemma CountWithinItems(items: seq<Value>, known: set<bytes>)
    requires AllSendable(items, known)
    ensures |items| <= |Join(PiecesAll(items))|
  {
    hide Valid, Registered, Join, PiecesAll, Typed, Supported;
    forall x | x in items ensures Typed(x) && Supported(x) { ValidIsTyped(x); }
    CountWithinLength(items);
  }

  lemma NormAllLength(items: seq<Value>)
    ensures |NormAll(items)| == |items|
  {
  }

  lemma MapParts(v: Value, known: set<bytes>)
    requires v.Map? && Sendable(v, known)
    ensures AllSendable(v.keys, known) && AllSendable(v.values, known) && |v.keys| == |v.values|
    ensures v.keys == [] ==> Pieces(v) == [Plain([7 + EMPTY])] + [] && Norm(v) == DMap([], [])
    ensures v.keys != [] ==>
      var count, contents := Plain(EncodeUint(|v.keys|)), PiecesAll(v.keys) + PiecesAll(v.values);
      Pieces(v) == [Plain([7])] + ([Plain(EncodeUint(|Join(contents)| + |EncodeUint(|v.keys|)|))] + ([count] + contents))
    ensures Norm(v) == DMap(NormAll(v.keys), NormAll(v.values))
  {
    hide Join, EncodeUint, PiecesAll, NormAll;
    NormAllLength(v.keys);
    NormAllLength(v.values);
  }

  lemma {:induction false} MapRoundTrip(v: Value, inp: Input, pos: nat, end: nat)
    requires v.Map? && Sendable(v, inp.known)
    requires Laid(inp, pos, end, Pieces(v))
    ensures pos <= |inp.data| && Decodes(v, inp, pos, end)
    decreases v, 0
  {
    hide *;
    MapParts(v, inp.known);
    if v.keys == [] {
      EmptyRoundTrip(v, inp, pos, end, 7, DMap([], []));
    } else {
      var keys, values := PiecesAll(v.keys), PiecesAll(v.values);
      var q, s := MapHeader(v, inp, pos, end);
      LaidSizes(v, inp, pos, end);
      LaidConcat(inp, s, end, keys, values);
      var t := s + |Join(keys)|;
      ManyRoundTrip(v.keys, inp, s, end);
      ManyRoundTrip(v.values, inp, t, end);
      MapRule(inp, pos, end, pos + |Enc(v)| - q, q, |v.keys|, s, NormAll(v.keys), t, NormAll(v.values), pos + |Enc(v)|);
      DecodesIf(v, inp, pos, end);
    }
  }

  /** The two counts in front of a map: `q` is behind the byte count, `s` behind the pair count. */
  lemma MapHeader(v: Value, inp: Input, pos: nat, end: nat) returns (q: nat, s: nat)
    requires v.Map? && v.keys != [] && Sendable(v, inp.known)
    requires Laid(inp, pos, end, Pieces(v))
    ensures pos + 1 < q < s <= |inp.data| && pos < end && inp.data[pos] == 7
    ensures s <= pos + |Enc(v)|
    ensures DecodeUint(inp, pos + 1, end) == Ok(pos + |Enc(v)| - q, q)
    ensures DecodeUint(inp, q, end) == Ok(|v.keys|, s)
    ensures Laid(inp, s, end, PiecesAll(v.keys) + PiecesAll(v.values))
    ensures s + |Join(PiecesAll(v.keys) + PiecesAll(v.values))| == pos + |Enc(v)|
  {
    hide *;
    MapParts(v, inp.known);
    LaidSizes(v, inp, pos, end);
    var n, contents := |v.keys|, PiecesAll(v.keys) + PiecesAll(v.values);
    var count := Plain(EncodeUint(n));
    var total := |Join(contents)| + |EncodeUint(n)|;
    LaidHeader(inp, pos, end, 7, [Plain(EncodeUint(total))] + ([count] + contents));
    JoinConcat([Plain(EncodeUint(total))], [count] + contents);
    JoinConcat([count], contents);
    LaidSingle(inp, pos, end, count);
    PlainBytes(EncodeUint(n));
    JoinConcat(PiecesAll(v.keys), PiecesAll(v.values));
    CountWithinItems(v.keys, inp.known);
    LaidVarint(inp, pos + 1, end, total, [count] + contents);
    q := pos + 1 + |EncodeUint(total)|;
    LaidVarint(inp, q, end, n, contents);
    s := q + |EncodeUint(n)|;
  }

  lemma PlainBytes(bs: bytes)
    ensures Plain(bs).bs == bs
  {
  }

  lemma StructParts(v: Value, known: set<bytes>)
    requires v.Struct? && Sendable(v, known)
    ensures Distinct(v.fields) && v.id in known
    ensures forall f :: f in v.fields ==> Valid(f.item) && Registered(f.item, known) && I64.Holds(f.index)
    ensures Norm(v) == DStruct(v.id, NormFields(v.fields))
    ensures var payload := FieldPieces(Chunks(Sort(v.fields)));
      Pieces(v) == [Plain([8])] + (BodyPieces(4, v.id) + ([Plain(EncodeUint(|Join(payload)|))] + payload))
  {
    hide Join, EncodeUint, Sort, FieldPieces, Chunks, BodyPieces, NormFields, Distinct, IntKind.Holds;
    SortCommutes(v.fields);
  }

  lemma {:induction false} StructRoundTrip(v: Value, inp: Input, pos: nat, end: nat)
    requires v.Struct? && Sendable(v, inp.known)
    requires Laid(inp, pos, end, Pieces(v))
    ensures pos <= |inp.data| && Decodes(v, inp, pos, end)
    decreases v, 0
  {
    hide *;
    StructParts(v, inp.known);
    LaidSizes(v, inp, pos, end);
    var q, s := StructHeader(v, inp, pos, end);
    var fs, stop := Sort(v.fields), pos + |Enc(v)|;
    SortDistinct(v.fields);
    assert [] + fs == fs;
    EmptyFieldMap();
    SendableIf(v, inp.known);
    FieldsRoundTrip(v, [], fs, inp, s, stop, map[]);
    NormFieldsMaps(v.fields);
    FieldMapUnique(fs, v.fields, DecodeFields(inp, s, stop, map[]).value, NormFields(v.fields));
    StructRule(inp, pos, end, v.id, q, stop - s, s, NormFields(v.fields), stop);
    DecodesIf(v, inp, pos, end);
  }

  lemma EmptyFieldMap()
    ensures FieldMap([], map[])
  {
  }

  /** What precedes a struct's fields: `q` is behind the identifier, `s` behind the length. */
  lemma StructHeader(v: Value, inp: Input, pos: nat, end: nat) returns (q: nat, s: nat)
    requires v.Struct? && Sendable(v, inp.known)
    requires Laid(inp, pos, end, Pieces(v))
    ensures pos < |inp.data| && pos < end && inp.data[pos] == 8
    ensures pos + 1 <= q < s <= |inp.data| && s <= pos + |Enc(v)|
    ensures DecodeTyped(4, inp, pos + 1, end) == Ok(v.id, q)
    ensures DecodeUint(inp, q, end) == Ok(pos + |Enc(v)| - s, s)
    ensures var payload := FieldPieces(Chunks(Sort(v.fields)));
      && s + |Join(payload)| == pos + |Enc(v)|
      && Laid(inp, s, pos + |Enc(v)|, payload)
  {
    hide *;
    StructParts(v, inp.known);
    LaidSizes(v, inp, pos, end);
    var payload := FieldPieces(Chunks(Sort(v.fields)));
    var size := Plain(EncodeUint(|Join(payload)|));
    var id := BodyPieces(4, v.id);
    LaidHeader(inp, pos, end, 8, id + ([size] + payload));
    LaidConcat(inp, pos + 1, end, id, [size] + payload);
    SmallBody(4, v.id);
    BodyDecodes(inp, pos + 1, end, 4, v.id);
    q := pos + 1 + |Join(id)|;
    JoinConcat([size], payload);
    LaidVarint(inp, q, end, |Join(payload)|, payload);
    s := q + |EncodeUint(|Join(payload)|)|;
    LaidTight(inp, s, end, payload);
  }

  lemma LaidTight(inp: Input, pos: nat, end: nat, ps: seq<Piece>)
    requires Laid(inp, pos, end, ps)
    ensures Laid(inp, pos, pos + |Join(ps)|, ps)
  {
    hide At, Join, WholeBodies;
  }

  /** The field loop, part of the way: `done` has been read into `m`, `rest` is still laid out. */
  lemma {:induction false} FieldsRoundTrip(v: Value, done: seq<Field>, rest: seq<Field>,
                                           inp: Input, pos: nat, end: nat, m: map<int, Decoded>)
    requires v.Struct? && Valid(v) && Registered(v, inp.known)
    requires Distinct(done + rest) && forall f :: f in rest ==> f in v.fields
    requires FieldMap(done, m)
    requires end <= MAX_INT + pos
    requires Laid(inp, pos, end, FieldPieces(Chunks(rest)))
    requires end == pos + |Join(FieldPieces(Chunks(rest)))|
    ensures pos <= |inp.data|
    ensures var r := DecodeFields(inp, pos, end, m);
      r.Ok? && r.pos == end && FieldMap(done + rest, r.value)
    decreases v, 0, |rest|
  {
    hide *;
    LaidInside(inp, pos, end, FieldPieces(Chunks(rest)));
    if rest == [] {
      assert done + rest == done;
      NoFields();
      FieldsEnd(inp, end, m);
    } else {
      var f := rest[0];
      StructFieldParts(v, inp.known, f);
      var q := FieldHeader(f, rest, inp, pos, end);
      LaidConcat(inp, q, end, Pieces(f.item), FieldPieces(Chunks(rest[1..])));
      LaidInside(inp, q, end, Pieces(f.item) + FieldPieces(Chunks(rest[1..])));
      SendableIf(f.item, inp.known);
      RoundTrip(f.item, inp, q, end);
      FieldRule(inp, pos, end, f.index % TWO_64, q, Norm(f.item), q + |Enc(f.item)|, m);
      FieldAdded(done, rest, m);
      assert done + rest == (done + [f]) + rest[1..];
      FieldsRoundTrip(v, done + [f], rest[1..], inp, q + |Enc(f.item)|, end, m[f.index := Norm(f.item)]);
    }
  }

  lemma NoFields()
    ensures Join(FieldPieces(Chunks([]))) == []
  {
  }

  lemma SendableIf(v: Value, known: set<bytes>)
    ensures |Enc(v)| == |Join(Pieces(v))|
    ensures Valid(v) && Registered(v, known) && |Enc(v)| <= MAX_INT <==> Sendable(v, known)
  {
    hide Valid, Registered, Join, Pieces;
  }

  lemma StructFieldParts(v: Value, known: set<bytes>, f: Field)
    requires v.Struct? && Valid(v) && Registered(v, known) && f in v.fields
    ensures Valid(f.item) && Registered(f.item, known) && I64.Holds(f.index)
  {
  }

  lemma FieldAdded(done: seq<Field>, rest: seq<Field>, m: map<int, Decoded>)
    requires rest != [] && Distinct(done + rest) && FieldMap(done, m)
    ensures FieldMap(done + [rest[0]], m[rest[0].index := Norm(rest[0].item)])
  {
    hide Norm;
    var f, m' := rest[0], m[rest[0].index := Norm(rest[0].item)];
    forall g | g in done ensures g.index != f.index {
      var i :| 0 <= i < |done| && done[i] == g;
      assert (done + rest)[i] == g && (done + rest)[|done|] == f;
    }
    forall i | i in m' ensures exists g :: g in done + [f] && g.index == i {
      if i == f.index {
        assert f in done + [f];
      } else {
        var g :| g in done && g.index == i;
        assert g in done + [f];
      }
    }
  }

  lemma FieldHeader(f: Field, rest: seq<Field>, inp: Input, pos: nat, end: nat) returns (q: nat)
    requires rest != [] && f == rest[0] && I64.Holds(f.index)
    requires Laid(inp, pos, end, FieldPieces(Chunks(rest)))
    ensures pos < q <= |inp.data|
    ensures DecodeUint(inp, pos, end) == Ok(f.index % TWO_64, q)
    ensures AsInt(f.index % TWO_64) == f.index
    ensures Laid(inp, q, end, Pieces(f.item) + FieldPieces(Chunks(rest[1..])))
    ensures q + |Join(Pieces(f.item) + FieldPieces(Chunks(rest[1..])))| == pos + |Join(FieldPieces(Chunks(rest)))|
  {
    hide *;
    FieldPiecesStep(rest);
    IndexWraps(f.index);
    LaidVarint(inp, pos, end, f.index % TWO_64, Pieces(f.item) + FieldPieces(Chunks(rest[1..])));
    q := pos + |EncodeUint(f.index % TWO_64)|;
  }

  lemma FieldPiecesStep(rest: seq<Field>)
    requires rest != []
    ensures FieldPieces(Chunks(rest)) == [Plain(EncodeUint(rest[0].index % TWO_64))]
      + (Pieces(rest[0].item) + FieldPieces(Chunks(rest[1..])))
  {
    hide EncodeUint, Pieces;
    assert Chunks(rest)[1..] == Chunks(rest[1..]);
  }

  lemma IndexWraps(i: int)
    requires I64.Holds(i)
    ensures AsInt(i % TWO_64) == i && 0 <= i % TWO_64 < TWO_64
  {
  }

  // Consequences.

  lemma {:induction false} WholeWithoutCuts(pos: nat, ps: seq<Piece>)
    ensures WholeBodies({}, pos, ps)
    decreases |ps|
  {
    if ps != [] {
      WholeWithoutCuts(pos + |ps[0].bs|, ps[1..]);
    }
  }

  /** Over one contiguous buffer, whatever follows the encoding. */
  lemma ContiguousRoundTrip(v: Value, suffix: bytes, tail: Error, known: set<bytes>)
    requires Sendable(v, known)
    ensures var inp := Input(Enc(v) + suffix, {}, tail, known);
      DecodeAny(inp, 0, NoLimit(inp)) == Ok(Norm(v), |Enc(v)|)
  {
    hide Sendable, Pieces, Join, DecodeAny, Norm;
    var inp := Input(Enc(v) + suffix, {}, tail, known);
    WholeWithoutCuts(0, Pieces(v));
    assert inp.data[0..|Enc(v)|] == Enc(v);
    RoundTrip(v, inp, 0, NoLimit(inp));
  }

  /** No encoding is a proper prefix of another, and equal encodings mean equal normal forms. */
  lemma PrefixFree(v: Value, w: Value, known: set<bytes>)
    requires Sendable(v, known) && Sendable(w, known)
    requires Enc(v) <= Enc(w)
    ensures Enc(v) == Enc(w) && Norm(v) == Norm(w)
  {
    hide Sendable, Enc, DecodeAny, Norm;
    var suffix := Enc(w)[|Enc(v)|..];
    assert Enc(v) + suffix == Enc(w) + [];
    ContiguousRoundTrip(v, suffix, EOF, known);
    ContiguousRoundTrip(w, [], EOF, known);
  }

  /** Skipping a map by its byte count lands where decodeMap, which ignores the count, stops. */
  lemma MapCountIsTrue(v: Value, inp: Input, pos: nat, end: nat)
    requires v.Map? && v.keys != [] && Sendable(v, inp.known)
    requires Laid(inp, pos, end, Pieces(v))
    ensures pos < |inp.data|
    ensures var count := DecodeUint(inp, pos + 1, end);
      && count.Ok? && DecodeAny(inp, pos, end).Ok?
      && DecodeAny(inp, pos, end).pos == count.pos + count.value
  {
    hide *;
    var q, s := MapHeader(v, inp, pos, end);
    RoundTrip(v, inp, pos, end);
  }

  /** Skipping a struct by its announced length lands where decodeStruct, which is limited by it, stops. */
  lemma StructLengthIsTrue(v: Value, inp: Input, pos: nat, end: nat)
    requires v.Struct? && Sendable(v, inp.known)
    requires Laid(inp, pos, end, Pieces(v))
    ensures pos < |inp.data|
    ensures var id := DecodeTyped(4, inp, pos + 1, end);
      && id.Ok?
      && var length := DecodeUint(inp, id.pos, end);
         && length.Ok? && DecodeAny(inp, pos, end).Ok?
         && DecodeAny(inp, pos, end).pos == length.pos + length.value
  {
    hide *;
    var q, s := StructHeader(v, inp, pos, end);
    RoundTrip(v, inp, pos, end);
  }

  /** A list and any rearrangement of it take the same room. */
  lemma {:induction false} PermutedLength(a: seq<Value>, b: seq<Value>)
    requires multiset(a) == multiset(b)
    ensures |Join(PiecesAll(a))| == |Join(PiecesAll(b))|
    decreases |a|
  {
    hide Join, PiecesAll;
    if a == [] {
      assert multiset(b) == multiset{};
      assert b == [] by { SameSize(a, b); }
    } else {
      var i := FirstElsewhere(a, b);
      PermutedLength(a[..0] + a[1..], b[..i] + b[i + 1..]);
      RoomWithout(a, 0);
      RoomWithout(b, i);
    }
  }

  lemma RoomWithout(a: seq<Value>, i: nat)
    requires i < |a|
    ensures |Join(PiecesAll(a))| == |Join(PiecesAll([a[i]]))| + |Join(PiecesAll(a[..i] + a[i + 1..]))|
  {
    hide Join, PiecesAll;
    var l, r := a[..i], a[i + 1..];
    assert a == l + ([a[i]] + r);
    RoomOf(l, [a[i]] + r);
    RoomOf([a[i]], r);
    RoomOf(l, r);
  }

  lemma {:induction false} RoomOf(a: seq<Value>, b: seq<Value>)
    ensures |Join(PiecesAll(a + b))| == |Join(PiecesAll(a))| + |Join(PiecesAll(b))|
  {
    hide Join, Pieces;
    if a == [] {
      assert a + b == b;
      JoinNil();
    } else {
      assert (a + b)[1..] == a[1..] + b;
      RoomOf(a[1..], b);
      JoinConcat(Pieces(a[0]), PiecesAll(a[1..] + b));
      JoinConcat(Pieces(a[0]), PiecesAll(a[1..]));
    }
  }

  /** The byte count in front of a map, and its size, do not depend on the order MapKeys picks. */
  lemma MapOrderKeepsLength(v: Value, w: Value)
    requires v.Map? && w.Map? && v.keys != []
    requires multiset(v.keys) == multiset(w.keys) && multiset(v.values) == multiset(w.values)
    ensures |v.keys| == |w.keys| && |Enc(v)| == |Enc(w)|
    ensures Pieces(v)[..3] == Pieces(w)[..3]
  {
    assert |v.keys| == |multiset(v.keys)| == |w.keys|;
    hide Join, PiecesAll, EncodeUint;
    PermutedLength(v.keys, w.keys);
    PermutedLength(v.values, w.values);
    JoinConcat(PiecesAll(v.keys), PiecesAll(v.values));
    JoinConcat(PiecesAll(w.keys), PiecesAll(w.values));
    JoinConcat(Pieces(v)[..3], PiecesAll(v.keys) + PiecesAll(v.values));
    JoinConcat(Pieces(w)[..3], PiecesAll(w.keys) + PiecesAll(w.values));
    assert Pieces(v) == Pieces(v)[..3] + (PiecesAll(v.keys) + PiecesAll(v.values));
    assert Pieces(w) == Pieces(w)[..3] + (PiecesAll(w.keys) + PiecesAll(w.values));
  }

  /** The bytes of a struct do not depend on the order its fields were declared in. */
  lemma FieldOrderIrrelevant(id: bytes, a: seq<Field>, b: seq<Field>)
    requires Distinct(a) && multiset(a) == multiset(b)
    ensures Enc(Struct(id, a)) == Enc(Struct(id, b))
  {
    hide Join, BodyPieces, EncodeUint, FieldPieces, Chunks, Sort, Distinct, Sorted;
    SortSorts(a);
    SortSorts(b);
    SortDistinct(a);
    SortedUnique(Sort(a), Sort(b));
    SortCommutes(a);
    SortCommutes(b);
  }

  /**
   * A string or bytes value survives exactly when no block ends strictly inside its body;
   * where one does, the decoder stops at it and returns zeros for the rest, without an error.
   */
  lemma BodyCut(inp: Input, pos: nat, end: nat, t: nat, s: bytes, body: nat)
    requires t <= 8 && s != [] && |s| <= MAX_INT && body == pos + 1 + |EncodeUint(|s|)|
    requires At(inp.data, pos, Join(BodyPieces(t, s))) && pos + |Join(BodyPieces(t, s))| <= end
    ensures body < |inp.data|
    ensures var stop := Min(body + |s|, BlockEnd(inp, body));
      DecodeTyped(t, inp, pos, end) == Ok(s[..stop - body] + Zeros(body + |s| - stop), stop)
    ensures DecodeTyped(t, inp, pos, end) == Ok(s, body + |s|) <==> Whole(inp.cuts, body, |s|)
  {
    hide *;
    BodyStart(inp, pos, end, t, s, body);
    ReadBodyCut(inp, body, end, s);
    BodyRule(inp, pos, end, t, |s|, body);
  }

  lemma BodyRule(inp: Input, pos: nat, end: nat, t: nat, n: nat, p: nat)
    requires t <= 8 && pos < p <= |inp.data| && pos < end && inp.data[pos] == t
    requires DecodeUint(inp, pos + 1, end) == Ok(n, p)
    ensures DecodeTyped(t, inp, pos, end) == ReadBody(inp, p, end, n)
  {
    hide DecodeUint, ReadBody;
  }

  lemma ReadBodyCut(inp: Input, pos: nat, end: nat, s: bytes)
    requires s != [] && At(inp.data, pos, s) && pos + |s| <= end && pos < |inp.data|
    ensures var stop := Min(pos + |s|, BlockEnd(inp, pos));
      ReadBody(inp, pos, end, |s|) == Ok(s[..stop - pos] + Zeros(pos + |s| - stop), stop)
    ensures ReadBody(inp, pos, end, |s|) == Ok(s, pos + |s|) <==> Whole(inp.cuts, pos, |s|)
  {
    var stop := Min(pos + |s|, BlockEnd(inp, pos));
    SlicePrefix(inp.data, pos, |s|, stop - pos);
    if stop == pos + |s| {
      assert s[..|s|] + Zeros(0) == s;
    }
  }

  lemma BodyStart(inp: Input, pos: nat, end: nat, t: nat, s: bytes, b: nat)
    requires t <= 8 && s != [] && |s| <= MAX_INT && b == pos + 1 + |EncodeUint(|s|)|
    requires At(inp.data, pos, Join(BodyPieces(t, s))) && pos + |Join(BodyPieces(t, s))| <= end
    ensures pos + 1 < b < |inp.data| && pos < end && inp.data[pos] == t
    ensures DecodeUint(inp, pos + 1, end) == Ok(|s|, b)
    ensures At(inp.data, b, s) && b + |s| <= end
  {
    hide At, EncodeUint, DecodeUint, Join;
    var u := EncodeUint(|s|);
    BodyBytes(t, s);
    AtConcat(inp.data, pos, [t], u + s);
    AtHead(inp.data, pos, [t]);
    AtConcat(inp.data, pos + 1, u, s);
    DecodeUintInverts(inp, pos + 1, end, |s|);
    AtInside(inp.data, b, s);
  }

  lemma BodyBytes(t: nat, s: bytes)
    requires t <= 8 && s != []
    ensures Join(BodyPieces(t, s)) == [t] + (EncodeUint(|s|) + s)
  {
    hide EncodeUint, Join;
    JoinThree(Plain([t]), Plain(EncodeUint(|s|)), Piece(s, true));
  }

  lemma JoinThree(a: Piece, b: Piece, c: Piece)
    ensures Join([a, b, c]) == a.bs + (b.bs + c.bs)
  {
    hide Join;
    assert [a, b, c] == [a] + ([b] + [c]);
    JoinConcat([a], [b] + [c]);
    JoinConcat([b], [c]);
    JoinOne(a);
    JoinOne(b);
    JoinOne(c);
  }

  lemma JoinOne(p: Piece)
    ensures Join([p]) == p.bs
  {
    assert [p][1..] == [];
    assert Join([p]) == p.bs + Join([]);
  }
}
