/** Values, what decoding makes of them, and the pieces their encodings are joined from (proto/encode.go). */
module Values {
  import opened Base
  import opened Readers
  import opened Scalars
  import opened Sorting
  import opened Varint

  /**
   * A value given to Encode. A nil pointer is `Void` and a pointer otherwise its
   * target; a map is listed in the order MapKeys happens to enumerate it, as two
   * parallel sequences; a struct lists its tagged fields in declaration order.
   */
  datatype Value =
    | Void
    | Int(kind: IntKind, v: int)
    | Bool(b: bool)
    | Float32(bits: nat)
    | Float64(bits: nat)
    | Str(s: bytes)
    | Bytes(bs: bytes)
    | Array(items: seq<Value>)
    | Map(keys: seq<Value>, values: seq<Value>)
    | Struct(id: bytes, fields: seq<Field>)
    | Unsupported

  type Field = Keyed<Value>

  /** What DecodeAny returns; a struct stops at the identifier and the fields by index. */
  datatype Decoded =
    | DVoid
    | DInt(magnitude: nat)
    | DBool(b: bool)
    | DFloat(wide: bool, bits: nat)
    | DStr(s: bytes)
    | DBytes(bs: bytes)
    | DArray(items: seq<Decoded>)
    | DMap(keys: seq<Decoded>, values: seq<Decoded>)
    | DStruct(id: bytes, fields: map<int, Decoded>)

  /** The values of Go's types that Encode accepts; struct field indices do not repeat. */
  ghost predicate Valid(v: Value) {
    match v
    case Int(k, n) => k.Holds(n)
    case Float32(bits) => bits < TWO_32
    case Float64(bits) => bits < TWO_64
    case Array(items) => forall x :: x in items ==> Valid(x)
    case Map(keys, values) =>
      && |keys| == |values|
      && (forall x :: x in keys ==> Valid(x))
      && (forall x :: x in values ==> Valid(x))
    case Struct(_, fields) =>
      && Distinct(fields)
      && forall f :: f in fields ==> I64.Holds(f.index) && Valid(f.item)
    case Unsupported => false
    case _ => true
  }

  /** A value Go's type system allows, whatever Encode makes of it. */
  ghost predicate Typed(v: Value) {
    match v
    case Int(k, n) => k.Holds(n)
    case Float32(bits) => bits < TWO_32
    case Float64(bits) => bits < TWO_64
    case Array(items) => forall x :: x in items ==> Typed(x)
    case Map(keys, values) =>
      && |keys| == |values|
      && (forall x :: x in keys ==> Typed(x))
      && (forall x :: x in values ==> Typed(x))
    case Struct(_, fields) => forall f :: f in fields ==> I64.Holds(f.index) && Typed(f.item)
    case _ => true
  }

  /** No part of the value is of a kind Encode refuses. */
  ghost predicate Supported(v: Value) {
    match v
    case Array(items) => forall x :: x in items ==> Supported(x)
    case Map(keys, values) => (forall x :: x in keys ==> Supported(x)) && (forall x :: x in values ==> Supported(x))
    case Struct(_, fields) => forall f :: f in fields ==> Supported(f.item)
    case Unsupported => false
    case _ => true
  }

  lemma {:induction false} ValidIsTyped(v: Value)
    requires Valid(v)
    ensures Typed(v) && Supported(v)
  {
    match v
    case Array(items) =>
      forall x | x in items ensures Typed(x) && Supported(x) { ValidIsTyped(x); }
    case Map(keys, values) =>
      forall x | x in keys ensures Typed(x) && Supported(x) { ValidIsTyped(x); }
      forall x | x in values ensures Typed(x) && Supported(x) { ValidIsTyped(x); }
    case Struct(_, fields) =>
      forall f | f in fields ensures Typed(f.item) && Supported(f.item) { ValidIsTyped(f.item); }
    case _ =>
  }

  /** Every struct identifier in the value is registered. */
  ghost predicate Registered(v: Value, known: set<bytes>) {
    match v
    case Array(items) => forall x :: x in items ==> Registered(x, known)
    case Map(keys, values) =>
      && (forall x :: x in keys ==> Registered(x, known))
      && (forall x :: x in values ==> Registered(x, known))
    case Struct(id, fields) => id in known && forall f :: f in fields ==> Registered(f.item, known)
    case _ => true
  }

  // What comes back.

  /** Zero of either sign is sent as a flag and comes back as +0. */
  function NormFloat(bits: nat, half: nat): nat { if bits == half then 0 else bits }

  const NEG_ZERO_32: nat := 0x8000_0000
  const NEG_ZERO_64: nat := 0x8000_0000_0000_0000

  function Norm(v: Value): Decoded
    decreases v
  {
    match v
    case Void => DVoid
    case Int(k, n) => DInt(if k.Holds(n) then Magnitude(k, n) else 0)
    case Bool(b) => DBool(b)
    case Float32(bits) => DFloat(false, NormFloat(bits, NEG_ZERO_32))
    case Float64(bits) => DFloat(true, NormFloat(bits, NEG_ZERO_64))
    case Str(s) => DStr(s)
    case Bytes(bs) => DBytes(bs)
    case Array(items) => DArray(NormAll(items))
    case Map(keys, values) => DMap(NormAll(keys), NormAll(values))
    case Struct(id, fields) => DStruct(id, NormFields(fields))
    case Unsupported => DVoid
  }

  function NormAll(items: seq<Value>): (r: seq<Decoded>)
    ensures |r| == |items|
    decreases items
  {
    if items == [] then [] else [Norm(items[0])] + NormAll(items[1..])
  }

  function NormFields(fields: seq<Field>): (m: map<int, Decoded>)
    decreases fields
  {
    if fields == [] then map[]
    else NormFields(fields[1..])[fields[0].index := NormField(fields[0])]
  }

  function NormField(f: Field): Decoded
    decreases f
  {
    Norm(f.item)
  }

  // What goes out.

  /** One operand of bytes.Join; a `body` is read back by a single Read. */
  datatype Piece = Piece(bs: bytes, body: bool)

  function Plain(bs: bytes): Piece { Piece(bs, false) }

  function Join(ps: seq<Piece>): bytes {
    if ps == [] then [] else ps[0].bs + Join(ps[1..])
  }

  lemma {:induction false} JoinConcat(a: seq<Piece>, b: seq<Piece>)
    ensures Join(a + b) == Join(a) + Join(b)
  {
    if a == [] {
      assert a + b == b;
    } else {
      assert (a + b)[1..] == a[1..] + b;
      JoinConcat(a[1..], b);
    }
  }

  const EMPTY: nat := 16
  const TRUE: nat := 16
  const WIDE: nat := 16
  const FLOAT_ZERO: nat := 32

  /** EncodeString (type 4) and EncodeBytes (type 5). */
  function BodyPieces(t: nat, s: bytes): seq<Piece>
    requires t <= 8
  {
    if s == [] then [Plain([t + EMPTY])] else [Plain([t]), Plain(EncodeUint(|s|)), Piece(s, true)]
  }

  function FloatPieces(bits: nat, wide: bool): seq<Piece> {
    var header := 3 + (if wide then WIDE else 0);
    if bits == 0 || bits == (if wide then NEG_ZERO_64 else NEG_ZERO_32)
    then [Plain([header + FLOAT_ZERO])]
    else [Plain([header]), Plain(BE(bits, if wide then 8 else 4))]
  }

  function Pieces(v: Value): seq<Piece>
    decreases v
  {
    match v
    case Void => [Plain([0])]
    case Int(k, n) => [Plain(if k.Holds(n) then ScalarBytes(k, n) else [])]
    case Bool(b) => [Plain([2 + (if b then TRUE else 0)])]
    case Float32(bits) => FloatPieces(bits, false)
    case Float64(bits) => FloatPieces(bits, true)
    case Str(s) => BodyPieces(4, s)
    case Bytes(b) => BodyPieces(5, b)
    case Array(items) =>
      if items == [] then [Plain([6 + EMPTY])]
      else [Plain([6]), Plain(EncodeUint(|items|))] + PiecesAll(items)
    case Map(keys, values) =>
      if keys == [] then [Plain([7 + EMPTY])]
      else
        var count := EncodeUint(|keys|);
        var contents := PiecesAll(keys) + PiecesAll(values);
        [Plain([7]), Plain(EncodeUint(|Join(contents)| + |count|)), Plain(count)] + contents
    case Struct(id, fields) =>
      var payload := FieldPieces(Sort(Chunks(fields)));
      [Plain([8])] + BodyPieces(4, id) + [Plain(EncodeUint(|Join(payload)|))] + payload
    case Unsupported => []
  }

  function PiecesAll(items: seq<Value>): seq<Piece>
    decreases items
  {
    if items == [] then [] else Pieces(items[0]) + PiecesAll(items[1..])
  }

  type Chunk = Keyed<seq<Piece>>

  function Chunks(fields: seq<Field>): (r: seq<Chunk>)
    ensures |r| == |fields|
    decreases fields
  {
    if fields == [] then []
    else [ChunkOf(fields[0])] + Chunks(fields[1..])
  }

  function ChunkOf(f: Field): Chunk
    decreases f
  {
    Keyed(f.index, Pieces(f.item))
  }

  /** Each field: its index, converted to a uint64, then its value. */
  function FieldPieces(chunks: seq<Chunk>): seq<Piece> {
    if chunks == [] then []
    else [Plain(EncodeUint(chunks[0].index % TWO_64))] + chunks[0].item + FieldPieces(chunks[1..])
  }

  function Enc(v: Value): bytes { Join(Pieces(v)) }

  // Facts about the pieces.

  lemma {:induction false} InsertCommutes(f: Field, fs: seq<Field>)
    ensures Chunks(Insert(f, fs)) == Insert(ChunkOf(f), Chunks(fs))
  {
    if fs == [] || f.index <= fs[0].index {
      assert ([f] + fs)[1..] == fs;
    } else {
      InsertCommutes(f, fs[1..]);
      assert Insert(f, fs)[1..] == Insert(f, fs[1..]);
      assert Chunks(fs)[1..] == Chunks(fs[1..]);
    }
  }

  /** Sorting the encoded fields is encoding the sorted fields. */
  lemma {:induction false} SortCommutes(fs: seq<Field>)
    ensures Chunks(Sort(fs)) == Sort(Chunks(fs))
  {
    if fs != [] {
      SortCommutes(fs[1..]);
      InsertCommutes(fs[0], Sort(fs[1..]));
      assert Chunks(fs)[1..] == Chunks(fs[1..]);
    }
  }

  /** `m` holds exactly the fields `fs`, by index. */
  ghost predicate FieldMap(fs: seq<Field>, m: map<int, Decoded>) {
    && (forall f :: f in fs ==> f.index in m && m[f.index] == Norm(f.item))
    && (forall i :: i in m ==> exists f :: f in fs && f.index == i)
  }

  lemma {:induction false} NormFieldsMaps(fs: seq<Field>)
    requires Distinct(fs)
    ensures FieldMap(fs, NormFields(fs))
  {
    if fs != [] {
      NormFieldsMaps(fs[1..]);
      assert fs == [fs[0]] + fs[1..];
      var m := NormFields(fs);
      forall i | i in m ensures exists f :: f in fs && f.index == i {
        if i == fs[0].index {
          assert fs[0] in fs;
        } else {
          var f :| f in fs[1..] && f.index == i;
          assert f in fs;
        }
      }
    }
  }

  lemma FieldMapUnique(fs: seq<Field>, gs: seq<Field>, m: map<int, Decoded>, n: map<int, Decoded>)
    requires FieldMap(fs, m) && FieldMap(gs, n)
    requires forall f :: f in fs <==> f in gs
    ensures m == n
  {
    forall i | i in m ensures i in n && m[i] == n[i] {
      var f :| f in fs && f.index == i;
      assert f in gs;
    }
    forall i | i in n ensures i in m {
      var f :| f in gs && f.index == i;
      assert f in fs;
    }
  }

  lemma StartsWithHeader(v: Value)
    requires Typed(v) && Supported(v)
    ensures |Enc(v)| >= 1
  {
    JoinHead(Pieces(v));
  }

  lemma JoinHead(ps: seq<Piece>)
    requires |ps| > 0
    ensures |Join(ps)| >= |ps[0].bs|
  {
  }

  lemma {:induction false} CountWithinLength(items: seq<Value>)
    requires forall x :: x in items ==> Typed(x) && Supported(x)
    ensures |Join(PiecesAll(items))| >= |items|
  {
    if items != [] {
      StartsWithHeader(items[0]);
      CountWithinLength(items[1..]);
      JoinConcat(Pieces(items[0]), PiecesAll(items[1..]));
    }
  }
}
