/** The loops of rpc/metadata.go and rpc/structs.go, proved against the functions of Messages. */
module MessageLoops {
  import opened Base
  import opened Readers
  import opened Values
  import opened Decoder
  import opened Codec
  import opened Messages
  import opened Loops

  // Writing.

  lemma {:induction false} AppendBody(t: nat, a: seq<bytes>, b: bytes)
    requires t <= 8
    ensures Join(Bodies(t, a + [b])) == Join(Bodies(t, a)) + Join(BodyPieces(t, b))
  {
    hide Join, BodyPieces;
    if a == [] {
      assert a + [b] == [b] && [b][1..] == [];
      assert Bodies(t, [b]) == BodyPieces(t, b) + Bodies(t, []) == BodyPieces(t, b);
      JoinNil();
    } else {
      assert (a + [b])[1..] == a[1..] + [b];
      AppendBody(t, a[1..], b);
      JoinConcat(BodyPieces(t, a[0]), Bodies(t, a[1..] + [b]));
      JoinConcat(BodyPieces(t, a[0]), Bodies(t, a[1..]));
    }
  }

  /** rpc/metadata.go:101-117. */
  method EncodeMetadata(meta: Metadata) returns (bs: bytes)
    ensures bs == Join(MetaPieces(meta))
  {
    hide Join, Bodies, BodyPieces;
    var keys, values: bytes := [], [];
    NoBodies();
    for i := 0 to |meta|
      invariant keys == Join(Bodies(4, Keys(meta)[..i])) && values == Join(Bodies(5, Vals(meta)[..i]))
    {
      assert Keys(meta)[..i + 1] == Keys(meta)[..i] + [meta[i].key];
      assert Vals(meta)[..i + 1] == Vals(meta)[..i] + [meta[i].value];
      AppendBody(4, Keys(meta)[..i], meta[i].key);
      AppendBody(5, Vals(meta)[..i], meta[i].value);
      keys := keys + Join(BodyPieces(4, meta[i].key));
      values := values + Join(BodyPieces(5, meta[i].value));
    }
    assert Keys(meta)[..|meta|] == Keys(meta) && Vals(meta)[..|meta|] == Vals(meta);
    JoinConcat(Bodies(4, Keys(meta)), Bodies(5, Vals(meta)));
    JoinConcat([Count(|meta|)], Bodies(4, Keys(meta)) + Bodies(5, Vals(meta)));
    JoinOne(Count(|meta|));
    bs := BE16(|meta| % TWO_16) + (keys + values);
  }

  lemma NoBodies()
    ensures Join(Bodies(4, [])) == [] && Join(Bodies(5, [])) == []
  {
  }

  ghost predicate AllReady(params: seq<Value>) {
    (forall v :: v in params ==> Typed(v)) && |Join(PiecesAll(params))| <= MAX_INT
  }

  ghost predicate AllSupported(params: seq<Value>) { forall v :: v in params ==> Supported(v) }

  /** rpc/structs.go:79-85, and again at 157-163. */
  method EncodeParams(params: seq<Value>) returns (r: Option<bytes>)
    requires AllReady(params)
    ensures r == if AllSupported(params) then Some(Join(PiecesAll(params))) else None
  {
    hide Join, PiecesAll, Enc, Typed, Supported;
    var data := [];
    NoItems();
    for i := 0 to |params|
      invariant data == All(params[..i]) && AllSupported(params[..i])
    {
      NextItem(params, i);
      ReadyIf(params[i], |All(params)|);
      var p := Encode(params[i]);
      if p.None? {
        return None;
      }
      data := data + p.value;
    }
    assert params[..|params|] == params;
    return Some(data);
  }

  lemma ReadyIf(v: Value, n: nat)
    requires Typed(v) && |Enc(v)| <= n <= MAX_INT
    ensures Ready(v)
  {
  }

  ghost predicate CanEncode(m: Message<Value>) {
    match m
    case Request(_, _, _, _, params) => AllSupported(params)
    case Response(_, _, _, params) => AllSupported(params)
    case StreamItem(v) => Supported(v)
    case _ => true
  }

  ghost predicate ReadyMessage(m: Message<Value>) {
    match m
    case Request(_, _, _, _, params) => AllReady(params)
    case Response(_, _, _, params) => AllReady(params)
    case StreamItem(v) => Ready(v)
    case _ => true
  }

  lemma TrailerBytes(f: bool, meta: Metadata, params: seq<Value>)
    ensures Join([Flags(f)] + (MetaPieces(meta) + ParamPieces(params)))
      == [if f then 1 else 0] + (Join(MetaPieces(meta)) + (BE16(|params| % TWO_16) + Join(PiecesAll(params))))
  {
    hide Join, PiecesAll, MetaPieces;
    JoinConcat([Flags(f)], MetaPieces(meta) + ParamPieces(params));
    JoinConcat(MetaPieces(meta), ParamPieces(params));
    JoinConcat([Count(|params|)], PiecesAll(params));
    JoinOne(Flags(f));
    JoinOne(Count(|params|));
  }

  lemma WrapBytes(m: Message<Value>)
    ensures Wrap(m) == [Kind(m)] + Join(ContentPieces(m))
  {
    hide Join, ContentPieces;
    JoinConcat([Plain([Kind(m)])], ContentPieces(m));
    JoinOne(Plain([Kind(m)]));
  }

  /** wrapMessage around the Encode of every kind (rpc/structs.go:55-61 and the seven Encode methods). */
  method WrapMessage(m: Message<Value>) returns (r: Option<bytes>)
    requires ReadyMessage(m)
    ensures r == if CanEncode(m) then Some(Wrap(m)) else None
  {
    hide Join, Wrap, PiecesAll, MetaPieces, BodyPieces, AllReady, Ready, AllSupported, Supported, ParamPieces;
    WrapBytes(m);
    var content: bytes;
    match m {
      case Request(service, name, f, meta, params) =>
        var enc := EncodeParams(params);
        if enc.None? {
          return None;
        }
        var md := EncodeMetadata(meta);
        TrailerBytes(f, meta, params);
        ghost var trailer := [Flags(f)] + (MetaPieces(meta) + ParamPieces(params));
        JoinConcat(BodyPieces(4, service), BodyPieces(4, name) + trailer);
        JoinConcat(BodyPieces(4, name), trailer);
        content := Join(BodyPieces(4, service)) + (Join(BodyPieces(4, name))
          + ([if f then 1 else 0] + (md + (BE16(|params| % TWO_16) + enc.value))));
      case Response(status, f, meta, params) =>
        var enc := EncodeParams(params);
        if enc.None? {
          return None;
        }
        var md := EncodeMetadata(meta);
        TrailerBytes(f, meta, params);
        JoinConcat([Count(status)], [Flags(f)] + (MetaPieces(meta) + ParamPieces(params)));
        JoinOne(Count(status));
        content := BE16(status % TWO_16)
          + ([if f then 1 else 0] + (md + (BE16(|params| % TWO_16) + enc.value)));
      case StreamItem(v) =>
        var enc := Encode(v);
        if enc.None? {
          return None;
        }
        content := enc.value;
      case StreamMetadata(meta) => content := EncodeMetadata(meta);
      case StreamError(status, meta) =>
        var md := EncodeMetadata(meta);
        JoinConcat([Count(status)], MetaPieces(meta));
        JoinOne(Count(status));
        content := BE16(status % TWO_16) + md;
      case StartStream =>
        JoinNil();
        content := [];
      case EndStream =>
        JoinNil();
        content := [];
    }
    return Some([Kind(m)] + content);
  }

  // Reading.

  /** The two loops of rpc/metadata.go:131-145. */
  method FillBodies(t: nat, inp: Input, start: nat, n: nat) returns (r: Res<seq<bytes>>)
    requires start <= |inp.data|
    ensures r == ReadBodies(t, inp, start, n)
  {
    hide DecodeTyped;
    var items: seq<bytes>, pos := [], start;
    AfterNone(ReadBodies(t, inp, start, n));
    for i := 0 to n
      invariant start <= pos <= |inp.data|
      invariant ReadBodies(t, inp, start, n) == After(items, ReadBodies(t, inp, pos, n - i))
    {
      var b := DecodeTyped(t, inp, pos, NoLimit(inp));
      if b.Err? {
        return Err(b.error, b.pos);
      }
      if ReadBodies(t, inp, b.pos, n - i - 1).Ok? {
        AfterOne(items, b.value, ReadBodies(t, inp, b.pos, n - i - 1));
      }
      items, pos := items + [b.value], b.pos;
    }
    assert items + [] == items;
    return Ok(items, pos);
  }

  /** rpc/metadata.go:119-154, the pairs filled from the last to the first. */
  method MetadataFromReader(inp: Input, pos: nat) returns (r: Res<Metadata>)
    requires pos <= |inp.data|
    ensures r == ReadMetadata(inp, pos)
  {
    hide ReadBodies, ReadU16;
    var size := ReadU16(inp, pos);
    if size.Err? {
      return Err(size.error, size.pos);
    }
    var n := size.value;
    if n == 0 {
      NoneToRead(inp, size.pos);
      return Ok([], size.pos);
    }
    var keys := FillBodies(4, inp, size.pos, n);
    if keys.Err? {
      return Err(keys.error, keys.pos);
    }
    var values := FillBodies(5, inp, keys.pos, n);
    if values.Err? {
      return Err(values.error, values.pos);
    }
    var pairs: Metadata := [];
    var i := n;
    ghost var all := Zip(keys.value, values.value);
    assert all[n..] == [];
    while i > 0
      invariant 0 <= i <= n && pairs == all[i..]
    {
      i := i - 1;
      pairs := [MetaPair(keys.value[i], values.value[i])] + pairs;
    }
    return Ok(pairs, values.pos);
  }

  lemma NoneToRead(inp: Input, pos: nat)
    requires pos <= |inp.data|
    ensures ReadBodies(4, inp, pos, 0) == Ok([], pos) && ReadBodies(5, inp, pos, 0) == Ok([], pos)
  {
  }
}
