/**
 * The formats on the wire, byte for byte and in numbers: what every encoder writes, and what the
 * decoders make of every header byte. Nothing here refers to the masks and kinds the model is written
 * with, so these are the laws that hold them in place.
 */
module Formats {
  import opened Base
  import opened Readers
  import opened Varint
  import opened Scalars
  import opened Sorting
  import opened Values
  import opened Codec
  import opened Decoder
  import opened Messages
  import opened Streams
  import opened Frames
  import Connections
  import Loops
  import MessageLoops

  function If(b: bool, n: nat): nat { if b then n else 0 }

  // Values (proto/).

  /** Type 1, the sign bits, and the LEB128 digits of the magnitude; zero is the header alone. */
  lemma IntFormat(k: IntKind, v: int)
    requires k.Holds(v)
    ensures var signed := k in {I8, I16, I32, I64};
      var stuck := k in {I8, I16, I32} && v == k.Lowest();
      var magnitude := if v > 0 then v else if stuck then 0x1_0000_0000_0000_0000 + v else -v;
      Enc(Int(k, v)) == if v == 0 then [33 + If(signed, 16)] else [1 + If(signed, 16) + If(v < 0, 64)] + EncodeUint(magnitude)
  {
    hide EncodeUint;
    JoinOne(Plain(ScalarBytes(k, v)));
  }

  /** The eight widths. */
  lemma Widths()
    ensures I8.Lowest() == -128 && I16.Lowest() == -32768 && I32.Lowest() == -2147483648
    ensures I64.Lowest() == -9223372036854775808
    ensures U8.Lowest() == 0 && IntKind.U16.Lowest() == 0 && IntKind.U32.Lowest() == 0 && U64.Lowest() == 0
    ensures I8.Modulus() == 256 && I16.Modulus() == 65536 && I32.Modulus() == 4294967296
    ensures I64.Modulus() == 18446744073709551616 && U8.Modulus() == 256 && IntKind.U16.Modulus() == 65536
    ensures IntKind.U32.Modulus() == 4294967296 && U64.Modulus() == 18446744073709551616
  {
  }

  lemma SmallFormat(b: bool, bits: nat)
    ensures Enc(Void) == [0] && Enc(Bool(b)) == [2 + If(b, 16)]
    ensures Enc(Float32(bits)) == if bits == 0 || bits == 0x8000_0000 then [35] else [3] + BE(bits, 4)
    ensures Enc(Float64(bits)) == if bits == 0 || bits == 0x8000_0000_0000_0000 then [51] else [19] + BE(bits, 8)
  {
    hide BE;
    JoinOne(Plain([0]));
    JoinOne(Plain([2 + If(b, 16)]));
    JoinOne(Plain([35]));
    JoinOne(Plain([51]));
    JoinTwo(Plain([3]), Plain(BE(bits, 4)));
    JoinTwo(Plain([19]), Plain(BE(bits, 8)));
  }

  lemma JoinTwo(a: Piece, b: Piece)
    ensures Join([a, b]) == a.bs + b.bs
  {
    assert [a, b] == [a] + [b];
    JoinConcat([a], [b]);
    JoinOne(a);
    JoinOne(b);
  }

  /** A string (type 4) or a byte slice (type 5). */
  function Text(t: byte, s: bytes): bytes
    requires t <= 8
  {
    if s == [] then [t + 16] else [t] + EncodeUint(|s|) + s
  }

  lemma TextFormat(t: byte, s: bytes)
    requires t <= 8
    ensures Join(BodyPieces(t, s)) == Text(t, s)
  {
    hide EncodeUint;
    if s == [] {
      JoinOne(Plain([t + 16]));
    } else {
      JoinThree(Plain([t]), Plain(EncodeUint(|s|)), Piece(s, true));
    }
  }

  /** The encodings of the items, one after another. */
  function EncAll(items: seq<Value>): bytes {
    if items == [] then [] else Enc(items[0]) + EncAll(items[1..])
  }

  lemma {:induction false} EncAllIs(items: seq<Value>)
    ensures Join(PiecesAll(items)) == EncAll(items)
  {
    if items == [] {
      JoinNil();
    } else {
      hide Join, Pieces;
      EncAllIs(items[1..]);
      JoinConcat(Pieces(items[0]), PiecesAll(items[1..]));
    }
  }

  lemma ArrayFormat(items: seq<Value>)
    ensures Enc(Array(items)) == if items == [] then [22] else [6] + (EncodeUint(|items|) + EncAll(items))
  {
    hide Enc, EncAll, EncodeUint;
    Loops.ArrayBytes(Array(items));
    EncAllIs(items);
  }

  /** The byte count covers the pair count; then all the keys, then all the values. */
  lemma MapFormat(keys: seq<Value>, values: seq<Value>)
    requires |keys| == |values|
    ensures var count, contents := EncodeUint(|keys|), EncAll(keys) + EncAll(values);
      Enc(Map(keys, values)) == if keys == [] then [23] else [7] + (EncodeUint(|contents| + |count|) + (count + contents))
  {
    hide Enc, EncAll, EncodeUint;
    Loops.MapBytes(Map(keys, values));
    EncAllIs(keys);
    EncAllIs(values);
  }

  /** Each field: its index as a uint64, then its value. */
  function EncFields(fields: seq<Field>): bytes {
    if fields == [] then []
    else EncodeUint(fields[0].index % 0x1_0000_0000_0000_0000) + (Enc(fields[0].item) + EncFields(fields[1..]))
  }

  lemma FieldStep(fields: seq<Field>)
    requires fields != []
    ensures var f := fields[0];
      FieldPieces(Chunks(fields)) ==
        [Plain(EncodeUint(f.index % 0x1_0000_0000_0000_0000))] + (Pieces(f.item) + FieldPieces(Chunks(fields[1..])))
  {
    hide Pieces, EncodeUint;
    var cs := Chunks(fields);
    assert cs[0] == ChunkOf(fields[0]) && cs[1..] == Chunks(fields[1..]);
  }

  lemma {:induction false} EncFieldsIs(fields: seq<Field>)
    ensures Join(FieldPieces(Chunks(fields))) == EncFields(fields)
  {
    if fields == [] {
      JoinNil();
    } else {
      hide Join, Pieces, EncodeUint, Chunks, FieldPieces;
      var f, rest := fields[0], fields[1..];
      EncFieldsIs(rest);
      FieldStep(fields);
      var index := Plain(EncodeUint(f.index % 0x1_0000_0000_0000_0000));
      JoinConcat([index], Pieces(f.item) + FieldPieces(Chunks(rest)));
      JoinConcat(Pieces(f.item), FieldPieces(Chunks(rest)));
      JoinOne(index);
    }
  }

  /** The identifier as a string, the byte length of the fields, and the fields by ascending index. */
  lemma StructFormat(id: bytes, fields: seq<Field>)
    ensures var payload := EncFields(Sort(fields));
      Enc(Struct(id, fields)) == [8] + (Text(4, id) + (EncodeUint(|payload|) + payload))
  {
    hide Enc, EncFields, EncodeUint, Sort, Text;
    Loops.StructBytes(Struct(id, fields));
    EncFieldsIs(Sort(fields));
    TextFormat(4, id);
  }

  lemma StringFormat(s: bytes)
    ensures Enc(Str(s)) == Text(4, s) && Enc(Value.Bytes(s)) == Text(5, s)
  {
    hide Text, BodyPieces;
    TextFormat(4, s);
    TextFormat(5, s);
  }

  /** What DecodeAny makes of every header byte, whoever wrote it. */
  lemma HeaderFormat(inp: Input, pos: nat, end: nat)
    requires pos < |inp.data| && pos < end
    ensures var h := inp.data[pos];
      var flag, flag2, r := h / 16 % 2 == 1, h / 32 % 2 == 1, DecodeAny(inp, pos, end);
      && (h % 16 == 0 ==> r == Ok(DVoid, pos + 1))
      && (h % 16 == 1 ==> if flag2 then r == Ok(DInt(0), pos + 1) else match DecodeUint(inp, pos + 1, end)
            case Ok(m, p) => r == Ok(DInt(m), p)
            case Err(e, p) => r == Err(e, p))
      && (h % 16 == 2 ==> r == Ok(DBool(flag), pos + 1))
      && (h % 16 == 3 ==> if flag2 then r == Ok(DFloat(flag, 0), pos + 1)
            else match ReadFull(inp, pos + 1, end, if flag then 8 else 4)
              case Ok(bs, p) => r == Ok(DFloat(flag, FromBE(bs)), p)
              case Err(e, p) => r == Err(e, p))
      && (h % 16 == 4 && flag ==> r == Ok(DStr([]), pos + 1))
      && (h % 16 == 5 && flag ==> r == Ok(DBytes([]), pos + 1))
      && (h % 16 == 6 && flag ==> r == Ok(DArray([]), pos + 1))
      && (h % 16 == 7 && flag ==> r == Ok(DMap([], []), pos + 1))
      && (h % 16 > 8 ==> r == Err(UnknownType, pos + 1))
  {
    hide DecodeUint, ReadFull, FromBE, ReadBody, DecodeMany, DecodeStruct;
  }

  lemma ScalarHeader(h: byte, inp: Input, pos: nat, end: nat)
    requires pos <= |inp.data|
    ensures var r := DecodeScalar(h, inp, pos, end);
      r.Ok? ==>
        && r.value.signed == (h / 16 % 2 == 1) && r.value.negative == (h / 64 % 2 == 1)
        && (h / 32 % 2 == 1 ==> r.value.magnitude == 0 && r.pos == pos)
  {
    hide DecodeUint;
  }

  /** decodeUint64 succeeds if and only if a byte without the top bit ends a run of bytes with it, inside the limit. */
  lemma VarintFormat(inp: Input, pos: nat, end: nat)
    requires pos <= |inp.data|
    ensures DecodeUint(inp, pos, end).Ok? <==>
      exists n :: pos < n <= |inp.data| && n <= end && Terminated(inp.data[pos..n])
    ensures var r := DecodeUint(inp, pos, end);
      r.Ok? ==> Terminated(inp.data[pos..r.pos]) && r.value == DigitSum(inp.data[pos..r.pos]) % 18446744073709551616
  {
    if n :| pos < n <= |inp.data| && n <= end && Terminated(inp.data[pos..n]) {
      DecodeUintDigits(inp, pos, end, inp.data[pos..n]);
    }
    var r := DecodeUint(inp, pos, end);
    if r.Ok? {
      VarintRead(inp, pos, end);
      DecodeUintDigits(inp, pos, end, inp.data[pos..r.pos]);
    }
  }

  lemma {:induction false} VarintRead(inp: Input, pos: nat, end: nat)
    requires pos <= |inp.data| && DecodeUint(inp, pos, end).Ok?
    ensures var n := DecodeUint(inp, pos, end).pos;
      pos < n <= |inp.data| && n <= end && Terminated(inp.data[pos..n])
    decreases |inp.data| - pos
  {
    var n := DecodeUint(inp, pos, end).pos;
    if inp.data[pos] >= 128 {
      VarintRead(inp, pos + 1, end);
      var all, rest := inp.data[pos..n], inp.data[pos + 1..n];
      assert all == [inp.data[pos]] + rest;
    }
  }

  /** A struct is returned only under an identifier that is registered. */
  lemma StructKnown(inp: Input, pos: nat, end: nat)
    requires pos <= |inp.data|
    ensures var r := DecodeAny(inp, pos, end);
      r.Ok? && r.value.DStruct? ==> r.value.id in inp.known
  {
    hide DecodeUint, ReadFull, FromBE, ReadBody, DecodeMany, DecodeFields, DecodeTyped;
  }

  /**
   * Where the fields of a struct end: at the limit or at the end of a source that says EOF, in front of
   * a field or within its index - but not between an index and its value.
   */
  lemma {:induction false} FieldsEnd(inp: Input, pos: nat, end: nat, fields: map<int, Decoded>)
    requires pos <= |inp.data|
    ensures var r := DecodeFields(inp, pos, end, fields);
      r.Ok? ==>
        && (r.pos >= end || (r.pos == |inp.data| && inp.tail == EOF)) && fields.Keys <= r.value.Keys
        && exists p :: pos <= p <= r.pos && DecodeUint(inp, p, end) == Err(EOF, r.pos)
    ensures var i := DecodeUint(inp, pos, end);
      i.Ok? && (i.pos >= end || i.pos == |inp.data|) ==> DecodeFields(inp, pos, end, fields).Err?
    decreases |inp.data| - pos
  {
    hide DecodeAny, DecodeUint;
    var i := DecodeUint(inp, pos, end);
    if i.Ok? {
      var v := DecodeAny(inp, i.pos, end);
      if v.Ok? {
        FieldsEnd(inp, v.pos, end, fields[AsInt(i.value) := v.value]);
      }
      NothingThere(inp, i.pos, end);
    } else {
      UintStops(inp, pos, end);
    }
  }

  lemma NothingThere(inp: Input, pos: nat, end: nat)
    requires pos <= |inp.data|
    ensures pos >= end || pos == |inp.data| ==> DecodeAny(inp, pos, end).Err?
  {
  }

  lemma {:induction false} UintStops(inp: Input, pos: nat, end: nat)
    requires pos <= |inp.data|
    ensures var r := DecodeUint(inp, pos, end);
      r.Err? ==> if r.pos >= end then r.error == EOF else r.pos == |inp.data| && r.error == inp.tail
    decreases |inp.data| - pos
  {
    if pos < |inp.data| && pos < end && inp.data[pos] >= 128 {
      UintStops(inp, pos + 1, end);
    }
  }

  // Messages (rpc/).

  /** A count or a status, as a uint16. */
  function U16(n: nat): bytes { [n / 256 % 256, n % 256] }

  lemma CountFormat(n: nat)
    ensures Count(n).bs == U16(n)
  {
    LowBytes(n);
  }

  lemma LowBytes(n: nat)
    ensures n % 65536 / 256 == n / 256 % 256 && n % 65536 % 256 == n % 256
  {
    var q, r := n / 65536, n % 65536;
    assert n == 256 * (256 * q + r / 256) + r % 256;
    ModUnique(n, 256, 256 * q + r / 256, r % 256);
    ModUnique(n / 256, 256, q, r / 256);
  }

  function Texts(t: byte, items: seq<bytes>): bytes
    requires t <= 8
  {
    if items == [] then [] else Text(t, items[0]) + Texts(t, items[1..])
  }

  lemma {:induction false} TextsFormat(t: byte, items: seq<bytes>)
    requires t <= 8
    ensures Join(Bodies(t, items)) == Texts(t, items)
  {
    if items == [] {
      JoinNil();
    } else {
      hide Join, BodyPieces, Text;
      TextsFormat(t, items[1..]);
      TextFormat(t, items[0]);
      JoinConcat(BodyPieces(t, items[0]), Bodies(t, items[1..]));
    }
  }

  /** The number of pairs, the keys as strings, the values as byte slices. */
  function Meta(meta: Metadata): bytes { U16(|meta|) + (Texts(4, Keys(meta)) + Texts(5, Vals(meta))) }

  lemma MetaFormat(meta: Metadata)
    ensures Join(MetaPieces(meta)) == Meta(meta)
  {
    hide Join, Bodies, Texts, Count, U16;
    TextsFormat(4, Keys(meta));
    TextsFormat(5, Vals(meta));
    CountFormat(|meta|);
    JoinConcat(Bodies(4, Keys(meta)), Bodies(5, Vals(meta)));
    JoinConcat([Count(|meta|)], Bodies(4, Keys(meta)) + Bodies(5, Vals(meta)));
    JoinOne(Count(|meta|));
  }

  lemma ParamsFormat(params: seq<Value>)
    ensures Join(ParamPieces(params)) == U16(|params|) + EncAll(params)
  {
    hide Join, PiecesAll, EncAll, Count, U16;
    EncAllIs(params);
    CountFormat(|params|);
    JoinConcat([Count(|params|)], PiecesAll(params));
    JoinOne(Count(|params|));
  }

  /** Each message begins with its kind, 1 to 7. */
  lemma MessageFormat(m: Message<Value>)
    ensures Messages.Wrap(m) == match m
      case Request(service, name, streaming, meta, params) =>
        [1] + (Text(4, service) + (Text(4, name) + ([If(streaming, 1)] + (Meta(meta) + (U16(|params|) + EncAll(params))))))
      case Response(status, streaming, meta, params) =>
        [2] + (U16(status) + ([If(streaming, 1)] + (Meta(meta) + (U16(|params|) + EncAll(params)))))
      case StartStream => [3]
      case StreamItem(v) => [4] + Enc(v)
      case StreamMetadata(meta) => [5] + Meta(meta)
      case EndStream => [6]
      case StreamError(status, meta) => [7] + (U16(status) + Meta(meta))
  {
    hide Join, BodyPieces, MetaPieces, ParamPieces, Text, Meta, EncAll, U16, Count, Pieces;
    MessageLoops.WrapBytes(m);
    JoinNil();
    match m
    case Request(service, name, streaming, meta, params) =>
      TextFormat(4, service);
      TextFormat(4, name);
      TrailerFormat(streaming, meta, params);
      var tail := [Flags(streaming)] + (MetaPieces(meta) + ParamPieces(params));
      JoinConcat(BodyPieces(4, service), BodyPieces(4, name) + tail);
      JoinConcat(BodyPieces(4, name), tail);
    case Response(status, streaming, meta, params) =>
      CountFormat(status);
      TrailerFormat(streaming, meta, params);
      JoinConcat([Count(status)], [Flags(streaming)] + (MetaPieces(meta) + ParamPieces(params)));
      JoinOne(Count(status));
    case StreamMetadata(meta) => MetaFormat(meta);
    case StreamError(status, meta) =>
      CountFormat(status);
      MetaFormat(meta);
      JoinConcat([Count(status)], MetaPieces(meta));
      JoinOne(Count(status));
    case _ =>
  }

  lemma TrailerFormat(streaming: bool, meta: Metadata, params: seq<Value>)
    ensures Join([Flags(streaming)] + (MetaPieces(meta) + ParamPieces(params)))
      == [If(streaming, 1)] + (Meta(meta) + (U16(|params|) + EncAll(params)))
  {
    hide Join, MetaPieces, ParamPieces, Meta, EncAll, U16;
    MetaFormat(meta);
    ParamsFormat(params);
    JoinConcat([Flags(streaming)], MetaPieces(meta) + ParamPieces(params));
    JoinConcat(MetaPieces(meta), ParamPieces(params));
    JoinOne(Flags(streaming));
  }

  /** A byte that is no kind is refused, and so is a message of another kind than the one expected. */
  lemma KindFormat(inp: Input, pos: nat, kind: nat)
    requires pos < |inp.data| && 1 <= kind <= 7
    ensures var k := inp.data[pos];
      && (k == 0 || k > 7 ==> ReadMessage(inp, pos) == Err(InvalidMessageKind, pos + 1))
      && (k != kind ==> ReadExpected(kind, inp, pos) == Err(MessageKindMismatch, pos + 1))
  {
    hide ReadContent, ReadFull;
  }

  // Frames (wire/).

  lemma BE4(v: nat)
    ensures BE(v, 4) == [v / 16777216 % 256, v / 65536 % 256, v / 256 % 256, v % 256]
  {
    assert BE(v, 1) == [v % 256] by { assert BE(v / 256, 0) == []; }
    BE1(v / 16777216);
    assert BE(v / 65536, 2) == BE(v / 65536 / 256, 1) + [v / 65536 % 256];
    assert BE(v / 256, 3) == BE(v / 256 / 256, 2) + [v / 256 % 256];
    assert v / 65536 / 256 == v / 16777216 && v / 256 / 256 == v / 65536;
  }

  lemma BE1(v: nat)
    ensures BE(v, 1) == [v % 256]
  {
    assert BE(v / 256, 0) == [];
  }

  lemma Concat4(a: bytes, b: bytes, c: bytes, d: bytes)
    requires |a| == 3 && |b| == 4 && |c| == 2 && |d| == 2
    ensures a + (b + (c + d)) == [a[0], a[1], a[2], b[0], b[1], b[2], b[3], c[0], c[1], d[0], d[1]]
  {
  }

  /** "arf", the stream id, the kind, the flags, the length, the payload. */
  lemma FrameFormat(f: Frame)
    ensures var id, n := f.streamID, |f.payload|;
      Frames.Bytes(f) == [0x61, 0x72, 0x66, id / 16777216 % 256, id / 65536 % 256, id / 256 % 256, id % 256,
                          f.kind, f.flags, n / 256 % 256, n % 256] + f.payload
  {
    var n := |f.payload|;
    BE4(f.streamID);
    LengthFormat(n);
    hide BE, BE16;
    Concat4(MAGIC, BE(f.streamID, 4), [f.kind, f.flags], BE16(n % TWO_16));
  }

  lemma LengthFormat(n: nat)
    ensures BE16(n % TWO_16) == [n / 256 % 256, n % 256]
  {
    LowBytes(n);
  }

  /** The six kinds, 0 to 5, and their flags. */
  lemma TypedFormat(t: Typed)
    ensures var f := IntoFrame(t);
      match t
      case Hello(ack, gzip, n) => f.streamID == 0 && f.kind == 0 && f.flags == If(ack, 1) + If(gzip, 2) && f.payload == BE(n, 4)
      case Ping(ack, payload) => f.streamID == 0 && f.kind == 1 && f.flags == If(ack, 4) && f.payload == payload
      case GoAway(last, code, extra) =>
        f.streamID == 0 && f.kind == 2 && f.flags == 0 && f.payload == BE(last, 4) + (BE(code, 4) + extra)
      case MakeStream(id) => f.streamID == id && f.kind == 3 && f.flags == 0 && f.payload == []
      case ResetStream(id, code) => f.streamID == id && f.kind == 4 && f.flags == 0 && f.payload == BE(code, 4)
      case DataFrame(id, endData, endStream, payload) =>
        f.streamID == id && f.kind == 5 && f.flags == If(endStream, 1) + If(endData, 2) && f.payload == payload
  {
    hide BE;
  }

  /** What FromFrame makes of every frame it accepts, whatever other flag bits it carries. */
  lemma FlagsFormat(f: Frame)
    requires f.kind <= 5 && FromFrame(f.kind, f).Parsed?
    ensures var a, b, c := f.flags % 2 == 1, f.flags / 2 % 2 == 1, f.flags / 4 % 2 == 1;
      match FromFrame(f.kind, f).typed
      case Hello(ack, gzip, n) =>
        f.kind == 0 && f.streamID == 0 && ack == a && gzip == b && (n != 0 ==> f.length == 4 && n == FromBE(f.payload[0..4]))
      case Ping(ack, payload) => f.kind == 1 && f.streamID == 0 && f.length == 8 && ack == c && payload == f.payload
      case GoAway(last, code, extra) =>
        && f.kind == 2 && f.streamID == 0 && |f.payload| >= 8
        && last == FromBE(f.payload[0..4]) && code == FromBE(f.payload[4..8]) && extra == f.payload[8..]
      case MakeStream(id) => f.kind == 3 && id == f.streamID != 0 && f.length == 0
      case ResetStream(id, code) =>
        f.kind == 4 && id == f.streamID != 0 && f.length == 4 && |f.payload| >= 4 && code == FromBE(f.payload[0..4])
      case DataFrame(id, endData, endStream, payload) =>
        f.kind == 5 && id == f.streamID != 0 && endStream == a && endData == b && payload == f.payload
  {
    hide FromBE;
  }

  /** Which frames with their announced length are taken, kind by kind, and why the others are not. */
  lemma AcceptFormat(expected: byte, f: Frame)
    requires Measured(f) && expected <= 5
    ensures var n := |f.payload|;
      FromFrame(expected, f).Parsed? <==>
        && f.kind == expected && (f.streamID == 0 <==> f.kind <= 2)
        && match f.kind
           case 0 => n == 0 || (n == 4 && (FromBE(f.payload[0..4]) == 0 || f.flags % 2 == 1))
           case 1 => n == 8
           case 2 => n >= 8
           case 3 => n == 0
           case 4 => n == 4
           case _ => true
    ensures var r := FromFrame(expected, f);
      !r.Parsed? ==> r == Rejected(
        if f.kind != expected then TypeMismatch
        else if f.kind > 2 && f.streamID == 0 then Unassociated
        else if f.kind <= 2 && f.streamID != 0 then Associated
        else if f.kind == 0 && |f.payload| == 4 then Invalid else BadLength)
  {
    hide FromBE;
  }

  /** A frame's worth of bytes is there: the magic, a known kind, and as many bytes as the header says. */
  predicate Present(data: bytes, pos: nat) {
    && pos + 11 <= |data| && data[pos..pos + 3] == [0x61, 0x72, 0x66] && data[pos + 7] <= 5
    && pos + 11 + (data[pos + 9] as int) * 256 + data[pos + 10] <= |data|
  }

  lemma HeaderThere(inp: Input, pos: nat)
    requires pos + 11 <= |inp.data|
    ensures var h := inp.data[pos..pos + 11];
      && ReadFull(inp, pos, NoLimit(inp), 11) == Ok(h, pos + 11)
      && h[..3] == inp.data[pos..pos + 3] && h[7] == inp.data[pos + 7]
      && HeaderOf(h).length == (inp.data[pos + 9] as int) * 256 + inp.data[pos + 10]
  {
    hide FromBE;
    var h := inp.data[pos..pos + 11];
    assert h[9..11] == [inp.data[pos + 9], inp.data[pos + 10]];
  }

  /** The frame reader returns a frame if and only if there is one, and then exactly the one whose bytes those are. */
  lemma ReaderFormat(inp: Input, pos: nat)
    requires pos <= |inp.data|
    ensures var r := ReadFrame(inp, pos);
      && (r.Got? <==> Present(inp.data, pos))
      && (r.Got? ==> Frames.Bytes(r.frame) == inp.data[pos..r.pos])
      && (r.Failed? && pos + 11 <= |inp.data| ==>
            if inp.data[pos..pos + 3] != [0x61, 0x72, 0x66] then r.fault == BadMagic
            else if inp.data[pos + 7] > 5 then r.fault == UnknownKind(inp.data[pos + 7])
            else r.fault.Io?)
  {
    hide ReadFull, HeaderOf, Header;
    if pos + 11 <= |inp.data| {
      HeaderThere(inp, pos);
      var r := ReadFrame(inp, pos);
      if r.Got? {
        var h := inp.data[pos..pos + 11];
        HeaderBack(h);
        HeaderParts(h);
        assert inp.data[pos..r.pos] == h + inp.data[pos + 11..r.pos];
      }
    }
  }

  lemma HeaderParts(h: bytes)
    requires |h| == 11
    ensures HeaderOf(h).payload == []
  {
    hide FromBE;
  }

  /** A header that starts with the magic is the header of what it is read as. */
  lemma HeaderBack(h: bytes)
    requires |h| == 11 && h[..3] == [0x61, 0x72, 0x66]
    ensures var f := HeaderOf(h);
      forall payload: bytes :: |payload| == f.length ==> Header(f.(payload := payload)) == h
  {
    var f := HeaderOf(h);
    BEBack(h[3..7]);
    forall payload: bytes | |payload| == f.length
      ensures Header(f.(payload := payload)) == h
    {
      assert BE16(f.length) == h[9..11];
      assert h == h[..3] + (h[3..7] + ([h[7], h[8]] + h[9..11]));
    }
  }

  lemma {:induction false} BEBack(b: bytes)
    ensures BE(FromBE(b), |b|) == b
  {
    if b != [] {
      var n := |b| - 1;
      BEBack(b[..n]);
      assert FromBE(b) / 256 == FromBE(b[..n]) && FromBE(b) % 256 == b[n];
      assert b == b[..n] + [b[n]];
    }
  }

  /** The limits and codes. */
  lemma Limits()
    ensures MAX_PAYLOAD == 65535 && CHANNEL == 128 && Connections.WRITE_QUEUE == 128 && STREAM_CLOSED == 3
    ensures Connections.Farewell == GoAway(0, 1, [])
    ensures TWO_16 == 65536 && TWO_32 == 4294967296 && TWO_64 == 18446744073709551616 && MAX_INT == 9223372036854775807
  {
  }
}
