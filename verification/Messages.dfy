/** RPC messages (rpc/structs.go, rpc/metadata.go): they carry no length, only their own encodings. */
module Messages {
  import opened Base
  import opened Readers
  import opened Varint
  import opened Scalars
  import opened Values
  import opened Decoder
  import opened Codec

  datatype MetaPair = MetaPair(key: bytes, value: bytes)

  type Metadata = seq<MetaPair>

  /** A message to send, over values, or received, over what they decode to. */
  datatype Message<+V> =
    | Request(service: bytes, name: bytes, streaming: bool, meta: Metadata, params: seq<V>)
    | Response(status: nat, streaming: bool, meta: Metadata, params: seq<V>)
    | StartStream
    | StreamItem(value: V)
    | StreamMetadata(meta: Metadata)
    | EndStream
    | StreamError(status: nat, meta: Metadata)

  function Kind<V>(m: Message<V>): (k: nat)
    ensures 1 <= k <= 7
  {
    match m
    case Request(_, _, _, _, _) => 1
    case Response(_, _, _, _) => 2
    case StartStream => 3
    case StreamItem(_) => 4
    case StreamMetadata(_) => 5
    case EndStream => 6
    case StreamError(_, _) => 7
  }

  function NormMessage(m: Message<Value>): Message<Decoded> {
    match m
    case Request(s, n, f, meta, params) => Request(s, n, f, meta, NormAll(params))
    case Response(s, f, meta, params) => Response(s, f, meta, NormAll(params))
    case StartStream => StartStream
    case StreamItem(v) => StreamItem(Norm(v))
    case StreamMetadata(meta) => StreamMetadata(meta)
    case EndStream => EndStream
    case StreamError(s, meta) => StreamError(s, meta)
  }

  // Writing.

  /** uint16(n), big endian. */
  function Count(n: nat): Piece { Plain(BE16(n % TWO_16)) }

  function Flags(streaming: bool): Piece { Plain([if streaming then 1 else 0]) }

  function Keys(meta: Metadata): (r: seq<bytes>)
    ensures |r| == |meta| && forall i :: 0 <= i < |r| ==> r[i] == meta[i].key
  {
    seq(|meta|, i requires 0 <= i < |meta| => meta[i].key)
  }

  function Vals(meta: Metadata): (r: seq<bytes>)
    ensures |r| == |meta| && forall i :: 0 <= i < |r| ==> r[i] == meta[i].value
  {
    seq(|meta|, i requires 0 <= i < |meta| => meta[i].value)
  }

  function Bodies(t: nat, items: seq<bytes>): seq<Piece>
    requires t <= 8
  {
    if items == [] then [] else BodyPieces(t, items[0]) + Bodies(t, items[1..])
  }

  function MetaPieces(meta: Metadata): seq<Piece> {
    [Count(|meta|)] + (Bodies(4, Keys(meta)) + Bodies(5, Vals(meta)))
  }

  function ParamPieces(params: seq<Value>): seq<Piece> {
    [Count(|params|)] + PiecesAll(params)
  }

  function ContentPieces(m: Message<Value>): seq<Piece> {
    match m
    case Request(s, n, f, meta, params) =>
      BodyPieces(4, s) + (BodyPieces(4, n) + ([Flags(f)] + (MetaPieces(meta) + ParamPieces(params))))
    case Response(s, f, meta, params) => [Count(s)] + ([Flags(f)] + (MetaPieces(meta) + ParamPieces(params)))
    case StartStream => []
    case StreamItem(v) => Pieces(v)
    case StreamMetadata(meta) => MetaPieces(meta)
    case EndStream => []
    case StreamError(s, meta) => [Count(s)] + MetaPieces(meta)
  }

  function MessagePieces(m: Message<Value>): seq<Piece> { [Plain([Kind(m)])] + ContentPieces(m) }

  function Wrap(m: Message<Value>): bytes { Join(MessagePieces(m)) }

  // Reading.

  function ReadU8(inp: Input, pos: nat): (r: Res<byte>)
    requires pos <= |inp.data|
    ensures pos <= r.pos <= |inp.data|
    ensures r.Ok? ==> r.pos == pos + 1 && r.value == inp.data[pos]
  {
    match ReadFull(inp, pos, NoLimit(inp), 1)
    case Err(e, p) => Err(e, p)
    case Ok(bs, p) => Ok(bs[0], p)
  }

  function ReadU16(inp: Input, pos: nat): (r: Res<nat>)
    requires pos <= |inp.data|
    ensures pos <= r.pos <= |inp.data|
    ensures r.Ok? ==> r.value < TWO_16
  {
    match ReadFull(inp, pos, NoLimit(inp), 2)
    case Err(e, p) => Err(e, p)
    case Ok(bs, p) => Ok(FromBE16(bs), p)
  }

  /** `n` strings (type 4) or byte slices (type 5) in a row. */
  function ReadBodies(t: nat, inp: Input, pos: nat, n: nat): (r: Res<seq<bytes>>)
    requires pos <= |inp.data|
    ensures pos <= r.pos <= |inp.data|
    ensures r.Ok? ==> |r.value| == n
    decreases n
  {
    if n == 0 then Ok([], pos)
    else
      match DecodeTyped(t, inp, pos, NoLimit(inp))
      case Err(e, p) => Err(e, p)
      case Ok(b, p) =>
        match ReadBodies(t, inp, p, n - 1)
        case Err(e, q) => Err(e, q)
        case Ok(bs, q) => Ok([b] + bs, q)
  }

  function Zip(keys: seq<bytes>, values: seq<bytes>): (m: Metadata)
    requires |keys| == |values|
    ensures |m| == |keys|
  {
    seq(|keys|, i requires 0 <= i < |keys| => MetaPair(keys[i], values[i]))
  }

  /** rpc/metadata.go:119-154: all the keys, then all the values. */
  function ReadMetadata(inp: Input, pos: nat): (r: Res<Metadata>)
    requires pos <= |inp.data|
    ensures pos <= r.pos <= |inp.data|
  {
    match ReadU16(inp, pos)
    case Err(e, p) => Err(e, p)
    case Ok(n, p) =>
      match ReadBodies(4, inp, p, n)
      case Err(e, q) => Err(e, q)
      case Ok(keys, q) =>
        match ReadBodies(5, inp, q, n)
        case Err(e, s) => Err(e, s)
        case Ok(values, s) => Ok(Zip(keys, values), s)
  }

  function ReadParams(inp: Input, pos: nat): (r: Res<seq<Decoded>>)
    requires pos <= |inp.data|
    ensures pos <= r.pos <= |inp.data|
  {
    match ReadU16(inp, pos)
    case Err(e, p) => Err(e, p)
    case Ok(n, p) => DecodeMany(inp, p, NoLimit(inp), n)
  }

  /** The common end of a request and a response: flags, metadata, parameters. */
  datatype Trailer = Trailer(streaming: bool, meta: Metadata, params: seq<Decoded>)

  function ReadTrailer(inp: Input, pos: nat): (r: Res<Trailer>)
    requires pos <= |inp.data|
    ensures pos <= r.pos <= |inp.data|
  {
    match ReadU8(inp, pos)
    case Err(e, p) => Err(e, p)
    case Ok(flags, p) =>
      match ReadMetadata(inp, p)
      case Err(e, q) => Err(e, q)
      case Ok(meta, q) =>
        match ReadParams(inp, q)
        case Err(e, s) => Err(e, s)
        case Ok(params, s) => Ok(Trailer(flags % 2 == 1, meta, params), s)
  }

  /** FromReader of the message kind `k`. */
  function ReadContent(k: nat, inp: Input, pos: nat): (r: Res<Message<Decoded>>)
    requires pos <= |inp.data| && 1 <= k <= 7
    ensures pos <= r.pos <= |inp.data|
    ensures r.Ok? && k == 2 ==> r.value.Response?
  {
    match k
    case 1 => ReadRequest(inp, pos)
    case 2 => ReadResponse(inp, pos)
    case 3 => Ok(StartStream, pos)
    case 4 => (
      match DecodeAny(inp, pos, NoLimit(inp))
      case Err(e, p) => Err(e, p)
      case Ok(v, p) => Ok(StreamItem(v), p))
    case 5 => (
      match ReadMetadata(inp, pos)
      case Err(e, p) => Err(e, p)
      case Ok(meta, p) => Ok(StreamMetadata(meta), p))
    case 6 => Ok(EndStream, pos)
    case _ => ReadStreamError(inp, pos)
  }

  function ReadRequest(inp: Input, pos: nat): (r: Res<Message<Decoded>>)
    requires pos <= |inp.data|
    ensures pos <= r.pos <= |inp.data|
  {
    match DecodeTyped(4, inp, pos, NoLimit(inp))
    case Err(e, p) => Err(e, p)
    case Ok(service, p) =>
      match DecodeTyped(4, inp, p, NoLimit(inp))
      case Err(e, q) => Err(e, q)
      case Ok(name, q) =>
        match ReadTrailer(inp, q)
        case Err(e, s) => Err(e, s)
        case Ok(t, s) => Ok(Request(service, name, t.streaming, t.meta, t.params), s)
  }

  function ReadResponse(inp: Input, pos: nat): (r: Res<Message<Decoded>>)
    requires pos <= |inp.data|
    ensures pos <= r.pos <= |inp.data|
  {
    match ReadU16(inp, pos)
    case Err(e, p) => Err(e, p)
    case Ok(status, p) =>
      match ReadTrailer(inp, p)
      case Err(e, s) => Err(e, s)
      case Ok(t, s) => Ok(Response(status, t.streaming, t.meta, t.params), s)
  }

  function ReadStreamError(inp: Input, pos: nat): (r: Res<Message<Decoded>>)
    requires pos <= |inp.data|
    ensures pos <= r.pos <= |inp.data|
  {
    match ReadU16(inp, pos)
    case Err(e, p) => Err(e, p)
    case Ok(status, p) =>
      match ReadMetadata(inp, p)
      case Err(e, q) => Err(e, q)
      case Ok(meta, q) => Ok(StreamError(status, meta), q)
  }

  /** rpc/structs.go:19-35. */
  function ReadMessage(inp: Input, pos: nat): (r: Res<Message<Decoded>>)
    requires pos <= |inp.data|
    ensures pos <= r.pos <= |inp.data|
    ensures r.Ok? ==> pos < r.pos
  {
    match ReadU8(inp, pos)
    case Err(e, p) => Err(e, p)
    case Ok(k, p) => if 1 <= k <= 7 then ReadContent(k, inp, p) else Err(InvalidMessageKind, p)
  }

  /** rpc/structs.go:37-53: a message of one expected kind. */
  function ReadExpected(kind: nat, inp: Input, pos: nat): (r: Res<Message<Decoded>>)
    requires pos <= |inp.data| && 1 <= kind <= 7
    ensures pos <= r.pos <= |inp.data|
    ensures r.Ok? ==> pos < r.pos && (kind == 2 ==> r.value.Response?)
  {
    match ReadU8(inp, pos)
    case Err(e, p) => Err(e, p)
    case Ok(k, p) => if k == kind then ReadContent(k, inp, p) else Err(MessageKindMismatch, p)
  }

  // Round trips.

  /** Values Go's types allow and the peer can decode. */
  ghost predicate Good(m: Message<Value>, known: set<bytes>) {
    && |Wrap(m)| <= MAX_INT
    && match m
       case Request(_, _, _, _, params) => AllSendable(params, known)
       case Response(s, _, _, params) => s < TWO_16 && AllSendable(params, known)
       case StreamItem(v) => Valid(v) && Registered(v, known)
       case StreamError(s, _) => s < TWO_16
       case _ => true
  }

  /** The counts that are cast to a uint16 survive the cast. */
  predicate CountsFit(m: Message<Value>) {
    match m
    case Request(_, _, _, meta, params) => |meta| < TWO_16 && |params| < TWO_16
    case Response(_, _, meta, params) => |meta| < TWO_16 && |params| < TWO_16
    case StreamMetadata(meta) => |meta| < TWO_16
    case StreamError(_, meta) => |meta| < TWO_16
    case _ => true
  }

  lemma LaidCount(inp: Input, pos: nat, n: nat, ps: seq<Piece>)
    requires Laid(inp, pos, NoLimit(inp), [Count(n)] + ps)
    ensures |Join([Count(n)] + ps)| == 2 + |Join(ps)|
    ensures pos + 2 <= |inp.data| && ReadU16(inp, pos) == Ok(n % TWO_16, pos + 2)
    ensures Laid(inp, pos + 2, NoLimit(inp), ps)
  {
    hide Laid, Join, ReadFull;
    LaidConcat(inp, pos, NoLimit(inp), [Count(n)], ps);
    LaidSingle(inp, pos, NoLimit(inp), Count(n));
  }

  lemma LaidFlags(inp: Input, pos: nat, f: bool, ps: seq<Piece>)
    requires Laid(inp, pos, NoLimit(inp), [Flags(f)] + ps)
    ensures |Join([Flags(f)] + ps)| == 1 + |Join(ps)|
    ensures pos < |inp.data| && ReadU8(inp, pos).Ok? && ReadU8(inp, pos).pos == pos + 1
    ensures (ReadU8(inp, pos).value % 2 == 1) == f
    ensures Laid(inp, pos + 1, NoLimit(inp), ps)
  {
    hide Laid, Join;
    LaidHeader(inp, pos, NoLimit(inp), if f then 1 else 0, ps);
  }

  lemma {:induction false} BodiesRoundTrip(t: nat, items: seq<bytes>, inp: Input, pos: nat)
    requires t <= 8 && |Join(Bodies(t, items))| <= MAX_INT
    requires Laid(inp, pos, NoLimit(inp), Bodies(t, items))
    ensures pos <= |inp.data|
    ensures ReadBodies(t, inp, pos, |items|) == Ok(items, pos + |Join(Bodies(t, items))|)
    decreases |items|
  {
    hide Laid, Join, DecodeTyped, BodyPieces;
    LaidInside(inp, pos, NoLimit(inp), Bodies(t, items));
    if items == [] {
      JoinNil();
    } else {
      assert [items[0]] + items[1..] == items;
      LaidConcat(inp, pos, NoLimit(inp), BodyPieces(t, items[0]), Bodies(t, items[1..]));
      SmallBody(t, items[0]);
      BodyDecodes(inp, pos, NoLimit(inp), t, items[0]);
      BodiesRoundTrip(t, items[1..], inp, pos + |Join(BodyPieces(t, items[0]))|);
    }
  }

  lemma MetadataRoundTrip(meta: Metadata, inp: Input, pos: nat)
    requires |Join(MetaPieces(meta))| <= MAX_INT && Laid(inp, pos, NoLimit(inp), MetaPieces(meta))
    ensures pos <= |inp.data|
    ensures |meta| < TWO_16 ==> ReadMetadata(inp, pos) == Ok(meta, pos + |Join(MetaPieces(meta))|)
    ensures ReadMetadata(inp, pos).Ok? ==> |ReadMetadata(inp, pos).value| == |meta| % TWO_16
  {
    hide Laid, Join, ReadU16, ReadBodies, Bodies, Count;
    var keys, values := Bodies(4, Keys(meta)), Bodies(5, Vals(meta));
    LaidCount(inp, pos, |meta|, keys + values);
    LaidConcat(inp, pos + 2, NoLimit(inp), keys, values);
    if |meta| < TWO_16 {
      BodiesRoundTrip(4, Keys(meta), inp, pos + 2);
      BodiesRoundTrip(5, Vals(meta), inp, pos + 2 + |Join(keys)|);
      assert Zip(Keys(meta), Vals(meta)) == meta;
    }
  }

  lemma ParamsRoundTrip(params: seq<Value>, inp: Input, pos: nat)
    requires AllSendable(params, inp.known) && |Join(ParamPieces(params))| <= MAX_INT
    requires Laid(inp, pos, NoLimit(inp), ParamPieces(params))
    ensures pos <= |inp.data|
    ensures |params| < TWO_16 ==> ReadParams(inp, pos) == Ok(NormAll(params), pos + |Join(ParamPieces(params))|)
    ensures ReadParams(inp, pos).Ok? ==> |ReadParams(inp, pos).value| == |params| % TWO_16
  {
    hide Laid, Join, ReadU16, PiecesAll, NormAll, DecodeMany, AllSendable, Count;
    LaidCount(inp, pos, |params|, PiecesAll(params));
    if |params| < TWO_16 {
      ManyRoundTrip(params, inp, pos + 2, NoLimit(inp));
    }
  }

  lemma TrailerRoundTrip(f: bool, meta: Metadata, params: seq<Value>, inp: Input, pos: nat)
    requires AllSendable(params, inp.known)
    requires var ps := [Flags(f)] + (MetaPieces(meta) + ParamPieces(params));
      |Join(ps)| <= MAX_INT && Laid(inp, pos, NoLimit(inp), ps)
    ensures pos <= |inp.data|
    ensures var r, ps := ReadTrailer(inp, pos), [Flags(f)] + (MetaPieces(meta) + ParamPieces(params));
      && (|meta| < TWO_16 && |params| < TWO_16 ==>
            r == Ok(Trailer(f, meta, NormAll(params)), pos + |Join(ps)|))
      && (r.Ok? && |meta| >= TWO_16 ==> |r.value.meta| != |meta|)
      && (r.Ok? && |meta| < TWO_16 && |params| >= TWO_16 ==> |r.value.params| != |params|)
  {
    hide Laid, Join, ReadU8, ReadMetadata, ReadParams, MetaPieces, ParamPieces, NormAll, AllSendable, Flags;
    LaidFlags(inp, pos, f, MetaPieces(meta) + ParamPieces(params));
    LaidConcat(inp, pos + 1, NoLimit(inp), MetaPieces(meta), ParamPieces(params));
    MetadataRoundTrip(meta, inp, pos + 1);
    if |meta| < TWO_16 {
      ParamsRoundTrip(params, inp, pos + 1 + |Join(MetaPieces(meta))|);
    }
  }

  /** What the content of a message, laid out at `pos`, must be read as. */
  ghost predicate ContentReads(m: Message<Value>, inp: Input, pos: nat)
    requires pos <= |inp.data|
  {
    ReadContent(Kind(m), inp, pos) == Ok(NormMessage(m), pos + |Join(ContentPieces(m))|) <==> CountsFit(m)
  }

  lemma RequestRoundTrip(m: Message<Value>, inp: Input, pos: nat)
    requires m.Request? && AllSendable(m.params, inp.known)
    requires |Join(ContentPieces(m))| <= MAX_INT && Laid(inp, pos, NoLimit(inp), ContentPieces(m))
    ensures pos <= |inp.data| && ContentReads(m, inp, pos)
  {
    hide *;
    var end, s, n := NoLimit(inp), BodyPieces(4, m.service), BodyPieces(4, m.name);
    var trailer := [Flags(m.streaming)] + (MetaPieces(m.meta) + ParamPieces(m.params));
    assert ContentPieces(m) == s + (n + trailer) by { RequestPieces(m); }
    LaidConcat(inp, pos, end, s, n + trailer);
    SmallBody(4, m.service);
    BodyDecodes(inp, pos, end, 4, m.service);
    var q := pos + |Join(s)|;
    LaidConcat(inp, q, end, n, trailer);
    SmallBody(4, m.name);
    BodyDecodes(inp, q, end, 4, m.name);
    TrailerRoundTrip(m.streaming, m.meta, m.params, inp, q + |Join(n)|);
    RequestRule(m, inp, pos, q, q + |Join(n)|, pos + |Join(ContentPieces(m))|);
  }

  lemma RequestPieces(m: Message<Value>)
    requires m.Request?
    ensures ContentPieces(m) == BodyPieces(4, m.service)
      + (BodyPieces(4, m.name) + ([Flags(m.streaming)] + (MetaPieces(m.meta) + ParamPieces(m.params))))
  {
  }

  lemma RequestRule(m: Message<Value>, inp: Input, pos: nat, q: nat, s: nat, t: nat)
    requires m.Request? && pos <= q <= s <= |inp.data| && t == pos + |Join(ContentPieces(m))|
    requires DecodeTyped(4, inp, pos, NoLimit(inp)) == Ok(m.service, q)
    requires DecodeTyped(4, inp, q, NoLimit(inp)) == Ok(m.name, s)
    requires var r := ReadTrailer(inp, s);
      && (|m.meta| < TWO_16 && |m.params| < TWO_16 ==> r == Ok(Trailer(m.streaming, m.meta, NormAll(m.params)), t))
      && (r.Ok? && |m.meta| >= TWO_16 ==> |r.value.meta| != |m.meta|)
      && (r.Ok? && |m.meta| < TWO_16 && |m.params| >= TWO_16 ==> |r.value.params| != |m.params|)
    ensures ContentReads(m, inp, pos)
  {
    hide Join, DecodeTyped, ReadTrailer, NormAll, ContentPieces;
    NormAllLength(m.params);
  }

  lemma ResponseRoundTrip(m: Message<Value>, inp: Input, pos: nat)
    requires m.Response? && AllSendable(m.params, inp.known) && m.status < TWO_16
    requires |Join(ContentPieces(m))| <= MAX_INT && Laid(inp, pos, NoLimit(inp), ContentPieces(m))
    ensures pos <= |inp.data| && ContentReads(m, inp, pos)
  {
    hide Laid, Join, ReadU16, ReadTrailer, MetaPieces, ParamPieces, NormAll, AllSendable, Flags, Count;
    var trailer := [Flags(m.streaming)] + (MetaPieces(m.meta) + ParamPieces(m.params));
    LaidCount(inp, pos, m.status, trailer);
    TrailerRoundTrip(m.streaming, m.meta, m.params, inp, pos + 2);
    NormAllLength(m.params);
  }

  lemma ContentRoundTrip(m: Message<Value>, inp: Input, pos: nat)
    requires Good(m, inp.known) && |Join(ContentPieces(m))| <= MAX_INT && pos <= |inp.data|
    requires Laid(inp, pos, NoLimit(inp), ContentPieces(m))
    ensures ContentReads(m, inp, pos)
  {
    hide Laid, Join, DecodeAny, Norm, Pieces, Valid, Registered, ReadMetadata, MetaPieces, ReadU16, AllSendable,
      ReadRequest, ReadResponse, Wrap, Count, NormAll;
    match m
    case Request(_, _, _, _, _) => RequestRoundTrip(m, inp, pos);
    case Response(_, _, _, _) => ResponseRoundTrip(m, inp, pos);
    case StreamItem(v) =>
      SendableIf(v, inp.known);
      RoundTrip(v, inp, pos, NoLimit(inp));
    case StreamMetadata(meta) => MetadataRoundTrip(meta, inp, pos);
    case StreamError(s, meta) =>
      LaidCount(inp, pos, s, MetaPieces(meta));
      MetadataRoundTrip(meta, inp, pos + 2);
    case StartStream => JoinNil();
    case EndStream => JoinNil();
  }

  /**
   * A message comes back as itself, and the reader ends exactly behind it, exactly when the counts
   * of its parameters and metadata pairs fit the 16 bits they are cast to.
   */
  lemma MessageRoundTrip(m: Message<Value>, inp: Input, pos: nat)
    requires Good(m, inp.known) && Laid(inp, pos, NoLimit(inp), MessagePieces(m))
    ensures pos < |inp.data|
    ensures ReadMessage(inp, pos) == Ok(NormMessage(m), pos + |Wrap(m)|) <==> CountsFit(m)
    ensures ReadExpected(Kind(m), inp, pos) == ReadMessage(inp, pos)
  {
    hide Laid, Join, ReadContent, ContentPieces, NormMessage, CountsFit, AllSendable, Valid, Registered;
    LaidHeader(inp, pos, NoLimit(inp), Kind(m), ContentPieces(m));
    ContentRoundTrip(m, inp, pos + 1);
  }

  // Sequences.

  function AllPieces(ms: seq<Message<Value>>): seq<Piece> {
    if ms == [] then [] else MessagePieces(ms[0]) + AllPieces(ms[1..])
  }

  function NormMessages(ms: seq<Message<Value>>): seq<Message<Decoded>> {
    if ms == [] then [] else [NormMessage(ms[0])] + NormMessages(ms[1..])
  }

  datatype Parsed = Parsed(messages: seq<Message<Decoded>>, error: Error, pos: nat)

  /** Messages until one cannot be read. */
  function ReadAll(inp: Input, pos: nat): Parsed
    requires pos <= |inp.data|
    decreases |inp.data| - pos
  {
    match ReadMessage(inp, pos)
    case Err(e, p) => Parsed([], e, p)
    case Ok(m, p) =>
      var rest := ReadAll(inp, p);
      rest.(messages := [m] + rest.messages)
  }

  /**
   * Any list of messages, sent back to back without lengths between them, is read as the same list
   * in normal form; the reader then stands at the end and answers what its source answers there.
   */
  lemma {:induction false} MessagesRoundTrip(ms: seq<Message<Value>>, inp: Input, pos: nat)
    requires forall i :: 0 <= i < |ms| ==> Good(ms[i], inp.known) && CountsFit(ms[i])
    requires Laid(inp, pos, NoLimit(inp), AllPieces(ms))
    requires pos + |Join(AllPieces(ms))| == |inp.data|
    ensures ReadAll(inp, pos) == Parsed(NormMessages(ms), inp.tail, |inp.data|)
    decreases |ms|
  {
    hide *;
    StreamStep(ms);
    if ms == [] {
      JoinNil();
      NothingToRead(inp);
    } else {
      LaidConcat(inp, pos, NoLimit(inp), MessagePieces(ms[0]), AllPieces(ms[1..]));
      MessageRoundTrip(ms[0], inp, pos);
      var p := pos + |Wrap(ms[0])|;
      MessagesRoundTrip(ms[1..], inp, p);
      ReadAllStep(inp, pos, NormMessage(ms[0]), p);
    }
  }

  lemma StreamStep(ms: seq<Message<Value>>)
    ensures ms == [] ==> AllPieces(ms) == [] && NormMessages(ms) == []
    ensures ms != [] ==>
      && AllPieces(ms) == MessagePieces(ms[0]) + AllPieces(ms[1..])
      && NormMessages(ms) == [NormMessage(ms[0])] + NormMessages(ms[1..])
      && Wrap(ms[0]) == Join(MessagePieces(ms[0]))
  {
    hide Join, MessagePieces, NormMessage;
  }

  lemma ReadAllStep(inp: Input, pos: nat, m: Message<Decoded>, p: nat)
    requires pos < p <= |inp.data| && ReadMessage(inp, pos) == Ok(m, p)
    ensures var rest := ReadAll(inp, p);
      ReadAll(inp, pos) == Parsed([m] + rest.messages, rest.error, rest.pos)
  {
    hide ReadMessage;
  }

  lemma NothingToRead(inp: Input)
    ensures ReadMessage(inp, |inp.data|) == Err(inp.tail, |inp.data|)
    ensures ReadAll(inp, |inp.data|) == Parsed([], inp.tail, |inp.data|)
  {
  }

  /** The same over one contiguous buffer. */
  lemma ContiguousMessages(ms: seq<Message<Value>>, tail: Error, known: set<bytes>)
    requires forall i :: 0 <= i < |ms| ==> Good(ms[i], known) && CountsFit(ms[i])
    ensures ReadAll(Input(Join(AllPieces(ms)), {}, tail, known), 0)
         == Parsed(NormMessages(ms), tail, |Join(AllPieces(ms))|)
  {
    hide Join, ReadAll, NormMessages, Good, CountsFit, AllPieces;
    var inp := Input(Join(AllPieces(ms)), {}, tail, known);
    WholeWithoutCuts(0, AllPieces(ms));
    assert inp.data[0..|inp.data|] == inp.data;
    MessagesRoundTrip(ms, inp, 0);
  }
}
