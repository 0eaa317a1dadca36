/** The codec's loops, as the source runs them, each proved against the functions of Values and Decoder. */
module Loops {
  import opened Base
  import opened Readers
  import opened Varint
  import opened Scalars
  import opened Sorting
  import opened Values
  import opened Decoder
  import Codec

  // Encoding. A value that fits in memory fits in an int; `None` is the error of proto/encode.go:63-64.

  ghost predicate Ready(v: Value) { Typed(v) && |Enc(v)| <= MAX_INT }

  method Encode(v: Value) returns (r: Option<bytes>)
    requires Ready(v)
    ensures r == if Supported(v) then Some(Enc(v)) else None
    decreases v, 1
  {
    match v
    case Void => r := Some(Leaf(v, [0]));
    case Bool(b) => r := Some(Leaf(v, [2 + (if b then TRUE else 0)]));
    case Int(k, n) =>
      var bs := EncodeScalar(k, n);
      r := Some(Leaf(v, bs));
    case Float32(bits) => r := Some(Join(FloatPieces(bits, false)));
    case Float64(bits) => r := Some(Join(FloatPieces(bits, true)));
    case Str(s) => r := Some(Join(BodyPieces(4, s)));
    case Bytes(b) => r := Some(Join(BodyPieces(5, b)));
    case Array(items) => r := EncodeArray(v);
    case Map(_, _) => r := EncodeMap(v);
    case Struct(_, _) => r := EncodeStruct(v);
    case Unsupported => r := None;
  }

  function Leaf(ghost v: Value, bs: bytes): (r: bytes)
    requires Pieces(v) == [Plain(bs)]
    ensures r == Enc(v)
  {
    Codec.JoinOne(Plain(bs));
    bs
  }

  /** The encodings of a list of values, one after the other. */
  ghost function All(items: seq<Value>): bytes { Join(PiecesAll(items)) }

  lemma {:induction false} AppendItem(a: seq<Value>, x: Value)
    ensures All(a + [x]) == All(a) + Enc(x)
  {
    hide Join, Pieces;
    if a == [] {
      assert [] + [x] == [x] && [x][1..] == [];
      assert PiecesAll([x]) == Pieces(x) + PiecesAll([]) == Pieces(x);
      Codec.JoinNil();
    } else {
      assert (a + [x])[1..] == a[1..] + [x];
      AppendItem(a[1..], x);
      JoinConcat(Pieces(a[0]), PiecesAll(a[1..] + [x]));
      JoinConcat(Pieces(a[0]), PiecesAll(a[1..]));
    }
  }

  /** Item `i` of a list: it is no larger than the list, and extends the encoding of what precedes it. */
  lemma NextItem(items: seq<Value>, i: nat)
    requires i < |items|
    ensures |Enc(items[i])| <= |All(items)|
    ensures All(items[..i + 1]) == All(items[..i]) + Enc(items[i])
    ensures items[..i + 1] == items[..i] + [items[i]]
  {
    hide Join, PiecesAll, Enc;
    assert items[..i + 1] == items[..i] + [items[i]];
    AppendItem(items[..i], items[i]);
    AppendItem([], items[i]);
    assert [] + [items[i]] == [items[i]];
    Codec.RoomWithout(items, i);
  }

  lemma NoItems()
    ensures All([]) == []
  {
  }

  /** proto/array.go:11-30. */
  method EncodeArray(v: Value) returns (r: Option<bytes>)
    requires v.Array? && Ready(v)
    ensures r == if Supported(v) then Some(Enc(v)) else None
    decreases v, 0
  {
    hide All, Enc, EncodeUint;
    var items := v.items;
    ArrayBytes(v);
    if |items| == 0 {
      return Some([6 + EMPTY]);
    }
    var buffer := [];
    NoItems();
    for i := 0 to |items|
      invariant buffer == All(items[..i])
      invariant forall x :: x in items[..i] ==> Supported(x)
    {
      NextItem(items, i);
      var data := Encode(items[i]);
      if data.None? {
        return None;
      }
      buffer := buffer + data.value;
    }
    assert items[..|items|] == items;
    CountFits(items);
    var count := EncodeUint64(|items|);
    return Some([6] + (count + buffer));
  }

  lemma CountFits(items: seq<Value>)
    requires forall x :: x in items ==> Typed(x) && Supported(x)
    ensures |items| <= |All(items)|
  {
    hide Join, PiecesAll, Typed, Supported;
    CountWithinLength(items);
  }

  lemma ArrayBytes(v: Value)
    requires v.Array?
    ensures v.items == [] ==> Enc(v) == [6 + EMPTY]
    ensures v.items != [] ==> Enc(v) == [6] + (EncodeUint(|v.items|) + All(v.items))
    ensures |All(v.items)| <= |Enc(v)|
  {
    hide EncodeUint, PiecesAll, Join;
    NoItems();
    if v.items == [] {
      Codec.JoinOne(Plain([6 + EMPTY]));
    } else {
      var count := Plain(EncodeUint(|v.items|));
      assert Pieces(v) == [Plain([6])] + ([count] + PiecesAll(v.items));
      JoinConcat([Plain([6])], [count] + PiecesAll(v.items));
      JoinConcat([count], PiecesAll(v.items));
      Codec.JoinOne(Plain([6]));
      Codec.JoinOne(count);
    }
  }

  /** proto/map.go:17-48. */
  method EncodeMap(v: Value) returns (r: Option<bytes>)
    requires v.Map? && Ready(v)
    ensures r == if Supported(v) then Some(Enc(v)) else None
    decreases v, 0
  {
    hide All, Enc, EncodeUint;
    MapBytes(v);
    if |v.keys| == 0 {
      return Some([7 + EMPTY]);
    }
    var keys, values := [], [];
    NoItems();
    for i := 0 to |v.keys|
      invariant keys == All(v.keys[..i]) && values == All(v.values[..i])
      invariant forall x :: x in v.keys[..i] ==> Supported(x)
      invariant forall x :: x in v.values[..i] ==> Supported(x)
    {
      NextItem(v.keys, i);
      NextItem(v.values, i);
      var key := Encode(v.keys[i]);
      if key.None? {
        return None;
      }
      var value := Encode(v.values[i]);
      if value.None? {
        return None;
      }
      keys := keys + key.value;
      values := values + value.value;
    }
    assert v.keys[..|v.keys|] == v.keys && v.values[..|v.values|] == v.values;
    CountFits(v.keys);
    var count := EncodeUint64(|v.keys|);
    var total := EncodeUint64(|keys| + |values| + |count|);
    return Some([7] + (total + (count + (keys + values))));
  }

  lemma MapBytes(v: Value)
    requires v.Map? && |v.keys| == |v.values|
    ensures v.keys == [] ==> Enc(v) == [7 + EMPTY]
    ensures var count, contents := EncodeUint(|v.keys|), All(v.keys) + All(v.values);
      v.keys != [] ==> Enc(v) == [7] + (EncodeUint(|contents| + |count|) + (count + contents))
    ensures |All(v.keys)| <= |Enc(v)| && |All(v.values)| <= |Enc(v)|
    ensures v.keys != [] ==> |All(v.keys)| + |All(v.values)| + |EncodeUint(|v.keys|)| <= |Enc(v)|
  {
    hide EncodeUint, PiecesAll, Join;
    NoItems();
    if v.keys == [] {
      Codec.JoinOne(Plain([7 + EMPTY]));
      assert v.values == [];
    } else {
      var contents := PiecesAll(v.keys) + PiecesAll(v.values);
      JoinConcat(PiecesAll(v.keys), PiecesAll(v.values));
      var count := Plain(EncodeUint(|v.keys|));
      var total := Plain(EncodeUint(|Join(contents)| + |count.bs|));
      assert Pieces(v) == [Plain([7])] + ([total] + ([count] + contents));
      JoinConcat([Plain([7])], [total] + ([count] + contents));
      JoinConcat([total], [count] + contents);
      JoinConcat([count], contents);
      Codec.JoinOne(Plain([7]));
      Codec.JoinOne(total);
      Codec.JoinOne(count);
    }
  }

  ghost function Payload(fields: seq<Field>): bytes { Join(FieldPieces(Chunks(fields))) }

  lemma {:induction false} AppendField(a: seq<Field>, f: Field)
    ensures Payload(a + [f]) == Payload(a) + (EncodeUint(f.index % TWO_64) + Enc(f.item))
  {
    hide Join, Pieces, EncodeUint, FieldPieces, Chunks;
    if a == [] {
      assert [] + [f] == [f] && [f][1..] == [];
      FieldSplit([f]);
      NoFields();
    } else {
      assert (a + [f])[1..] == a[1..] + [f];
      AppendField(a[1..], f);
      FieldSplit(a + [f]);
      FieldSplit(a);
    }
  }

  lemma NoFields()
    ensures Payload([]) == []
  {
  }

  lemma FieldSplit(fs: seq<Field>)
    requires fs != []
    ensures Payload(fs) == EncodeUint(fs[0].index % TWO_64) + Enc(fs[0].item) + Payload(fs[1..])
  {
    hide Join, Pieces, EncodeUint, FieldPieces, Chunks;
    var index := Plain(EncodeUint(fs[0].index % TWO_64));
    var rest := FieldPieces(Chunks(fs[1..]));
    Codec.FieldPiecesStep(fs);
    JoinConcat([index], Pieces(fs[0].item) + rest);
    JoinConcat(Pieces(fs[0].item), rest);
    Codec.JoinOne(index);
  }

  lemma NextField(fs: seq<Field>, i: nat)
    requires i < |fs|
    ensures fs[..i + 1] == fs[..i] + [fs[i]]
    ensures Payload(fs[..i + 1]) == Payload(fs[..i]) + (EncodeUint(fs[i].index % TWO_64) + Enc(fs[i].item))
    ensures |Enc(fs[i].item)| <= |Payload(fs)|
  {
    hide Payload, Enc, EncodeUint;
    assert fs[..i + 1] == fs[..i] + [fs[i]];
    AppendField(fs[..i], fs[i]);
    PayloadGrows(fs, i + 1);
  }

  lemma {:induction false} PayloadGrows(fs: seq<Field>, i: nat)
    requires i <= |fs|
    ensures |Payload(fs[..i])| <= |Payload(fs)|
    decreases |fs| - i
  {
    if i == |fs| {
      assert fs[..i] == fs;
    } else {
      hide Payload, Enc, EncodeUint;
      assert fs[..i + 1] == fs[..i] + [fs[i]];
      AppendField(fs[..i], fs[i]);
      PayloadGrows(fs, i + 1);
    }
  }

  /** proto/struct.go:88-122: fields sorted by index, then encoded one by one. */
  method EncodeStruct(v: Value) returns (r: Option<bytes>)
    requires v.Struct? && Ready(v)
    ensures r == if Supported(v) then Some(Enc(v)) else None
    decreases v, 0
  {
    hide Payload, Enc, EncodeUint, Sort, Join, BodyPieces;
    var fields := Sort(v.fields);
    StructBytes(v);
    var data := [];
    NoFields();
    for i := 0 to |fields|
      invariant data == Payload(fields[..i])
      invariant forall f :: f in fields[..i] ==> Supported(f.item)
    {
      NextField(fields, i);
      assert fields[i] in v.fields;
      Codec.IndexWraps(fields[i].index);
      var index := EncodeUint64(fields[i].index % TWO_64);
      var buf := Encode(fields[i].item);
      if buf.None? {
        return None;
      }
      data := data + (index + buf.value);
    }
    assert fields[..|fields|] == fields;
    var length := EncodeUint64(|data|);
    return Some([8] + (Join(BodyPieces(4, v.id)) + (length + data)));
  }

  lemma StructBytes(v: Value)
    requires v.Struct?
    ensures var payload := Payload(Sort(v.fields));
      Enc(v) == [8] + (Join(BodyPieces(4, v.id)) + (EncodeUint(|payload|) + payload))
    ensures |Payload(Sort(v.fields))| <= |Enc(v)|
  {
    hide Join, EncodeUint, Sort, FieldPieces, Chunks, BodyPieces;
    SortCommutes(v.fields);
    var payload := FieldPieces(Chunks(Sort(v.fields)));
    var id, size := BodyPieces(4, v.id), Plain(EncodeUint(|Join(payload)|));
    assert Pieces(v) == [Plain([8])] + (id + ([size] + payload));
    JoinConcat([Plain([8])], id + ([size] + payload));
    JoinConcat(id, [size] + payload);
    JoinConcat([size], payload);
    Codec.JoinOne(Plain([8]));
    Codec.JoinOne(size);
  }

  // Decoding: the reader's position is threaded through; a limit is an end position.

  /** proto/decode.go:7-37. The default branch of the switch is never reached. */
  method DecodeValue(inp: Input, pos: nat, end: nat) returns (r: Res<Decoded>)
    requires pos <= |inp.data|
    ensures r == DecodeAny(inp, pos, end)
    decreases |inp.data| - pos, 0
  {
    var t := ReadType(inp, pos, end);
    if t.Err? {
      return Err(t.error, t.pos);
    }
    var h, p := t.value, t.pos;
    match h % 16
    case 0 => r := Ok(DVoid, p);
    case 1 =>
      var s := DecodeScalar(h, inp, p, end);
      r := if s.Err? then Err(s.error, s.pos) else Ok(DInt(s.value.magnitude), s.pos);
    case 2 => r := Ok(DBool(Bit(h, TRUE)), p);
    case 3 => r := DecodeFloat(h, inp, p, end);
    case 4 =>
      var s := DecodeBody(h, inp, p, end);
      r := if s.Err? then Err(s.error, s.pos) else Ok(DStr(s.value), s.pos);
    case 5 =>
      var s := DecodeBody(h, inp, p, end);
      r := if s.Err? then Err(s.error, s.pos) else Ok(DBytes(s.value), s.pos);
    case 6 => r := DecodeArrayValue(h, inp, p, end);
    case 7 => r := DecodeMapValue(h, inp, p, end);
    case 8 => r := DecodeStructValue(inp, p, end);
    case _ => assert false;
  }

  /** The loop shared by proto/array.go:42-47 and proto/map.go:67-79: a slice filled by index. */
  method FillSlice(inp: Input, start: nat, end: nat, n: nat) returns (r: Res<seq<Decoded>>)
    requires start <= |inp.data|
    ensures r == DecodeMany(inp, start, end, n)
    decreases |inp.data| - start, 1
  {
    hide DecodeAny;
    var slice: seq<Decoded>, pos := [], start;
    AfterNone(DecodeMany(inp, start, end, n));
    for i := 0 to n
      invariant start <= pos <= |inp.data|
      invariant DecodeMany(inp, start, end, n) == After(slice, DecodeMany(inp, pos, end, n - i))
    {
      var v := DecodeValue(inp, pos, end);
      if v.Err? {
        return Err(v.error, v.pos);
      }
      if DecodeMany(inp, v.pos, end, n - i - 1).Ok? {
        AfterOne(slice, v.value, DecodeMany(inp, v.pos, end, n - i - 1));
      }
      slice, pos := slice + [v.value], v.pos;
    }
    assert slice + [] == slice;
    return Ok(slice, pos);
  }

  ghost function After<T>(done: seq<T>, r: Res<seq<T>>): Res<seq<T>> {
    match r
    case Err(e, p) => r
    case Ok(rest, p) => Ok(done + rest, p)
  }

  lemma AfterNone<T>(r: Res<seq<T>>)
    ensures After([], r) == r
  {
    if r.Ok? {
      assert [] + r.value == r.value;
    }
  }

  lemma AfterOne<T>(done: seq<T>, x: T, r: Res<seq<T>>)
    requires r.Ok?
    ensures After(done, Ok([x] + r.value, r.pos)) == After(done + [x], r)
  {
    assert done + ([x] + r.value) == (done + [x]) + r.value;
  }

  /** proto/array.go:32-50. */
  method DecodeArrayValue(header: byte, inp: Input, pos: nat, end: nat) returns (r: Res<Decoded>)
    requires pos <= |inp.data|
    ensures r == DecodeArray(header, inp, pos, end)
    decreases |inp.data| - pos, 2
  {
    hide DecodeMany, DecodeUint;
    if Bit(header, EMPTY) {
      return Ok(DArray([]), pos);
    }
    var n := DecodeUint64(inp, pos, end);
    if n.Err? {
      return Err(n.error, n.pos);
    }
    var items := FillSlice(inp, n.pos, end, n.value);
    r := if items.Err? then Err(items.error, items.pos) else Ok(DArray(items.value), items.pos);
  }

  /** proto/map.go:50-82. */
  method DecodeMapValue(header: byte, inp: Input, pos: nat, end: nat) returns (r: Res<Decoded>)
    requires pos <= |inp.data|
    ensures r == DecodeMap(header, inp, pos, end)
    decreases |inp.data| - pos, 2
  {
    hide DecodeMany, DecodeUint;
    if Bit(header, EMPTY) {
      return Ok(DMap([], []), pos);
    }
    var size := DecodeUint64(inp, pos, end);
    if size.Err? {
      return Err(size.error, size.pos);
    }
    var n := DecodeUint64(inp, size.pos, end);
    if n.Err? {
      return Err(n.error, n.pos);
    }
    var keys := FillSlice(inp, n.pos, end, n.value);
    if keys.Err? {
      return Err(keys.error, keys.pos);
    }
    var values := FillSlice(inp, keys.pos, end, n.value);
    r := if values.Err? then Err(values.error, values.pos) else Ok(DMap(keys.value, values.value), values.pos);
  }

  /** proto/struct.go:129-173. */
  method DecodeStructValue(inp: Input, start: nat, end: nat) returns (r: Res<Decoded>)
    requires start <= |inp.data|
    ensures r == DecodeStruct(inp, start, end)
    decreases |inp.data| - start, 2
  {
    hide DecodeUint, DecodeAny;
    var id := DecodeTyped(4, inp, start, end);
    if id.Err? {
      return Err(id.error, id.pos);
    }
    var n := DecodeUint64(inp, id.pos, end);
    if n.Err? {
      return Err(n.error, n.pos);
    }
    var limit, pos := Limit(n.pos, end, n.value), n.pos;
    var fields: map<int, Decoded> := map[];
    ghost var whole := DecodeFields(inp, pos, limit, fields);
    while true
      invariant start < pos <= |inp.data|
      invariant whole == DecodeFields(inp, pos, limit, fields)
      decreases |inp.data| - pos
    {
      var i := DecodeUint64(inp, pos, limit);
      if i.Err? {
        if i.error == EOF {
          pos := i.pos;
          break;
        }
        return Err(i.error, i.pos);
      }
      var v := DecodeValue(inp, i.pos, limit);
      if v.Err? {
        return Err(v.error, v.pos);
      }
      fields, pos := fields[AsInt(i.value) := v.value], v.pos;
    }
    if id.value !in inp.known {
      return Err(UnknownStruct, pos);
    }
    return Ok(DStruct(id.value, fields), pos);
  }
}
