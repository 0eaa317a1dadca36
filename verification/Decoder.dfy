/**
 * The recursive decoder (proto/decode.go) as functions of an input, a position and a limit.
 * Their contracts are its totality: whatever counts and lengths the input claims,
 * decoding ends inside the input and inside the limit, and a success consumes a byte.
 */
module Decoder {
  import opened Base
  import opened Readers
  import opened Scalars
  import opened Values

  /** The outcome leaves the reader between where it started and both ends. */
  predicate Within<T>(inp: Input, pos: nat, end: nat, r: Res<T>) {
    pos <= r.pos <= |inp.data| && (r.pos <= end || r.pos == pos)
  }

  /** proto/type_identifiers.go:36-49: the header, if its low four bits name one of the nine types. */
  function ReadType(inp: Input, pos: nat, end: nat): (r: Res<byte>)
    requires pos <= |inp.data|
    ensures Within(inp, pos, end, r)
    ensures r.Ok? <==> pos < end && pos < |inp.data| && inp.data[pos] % 16 <= 8
    ensures r.Ok? ==> r.pos == pos + 1 && r.value == inp.data[pos]
  {
    match ReadByte(inp, pos, end)
    case Err(e, p) => Err(e, p)
    case Ok(b, p) => if b % 16 <= 8 then Ok(b, p) else Err(UnknownType, p)
  }

  /** proto/string.go:27-43 and proto/bytes.go:24-40, which differ only in the type they return. */
  function DecodeBody(header: byte, inp: Input, pos: nat, end: nat): (r: Res<bytes>)
    requires pos <= |inp.data|
    ensures Within(inp, pos, end, r)
    ensures r.Ok? && !Bit(header, EMPTY) ==>
      var n := DecodeUint(inp, pos, end);
      n.Ok? && n.pos <= r.pos <= n.pos + n.value && |r.value| == n.value
      && r.value[..r.pos - n.pos] == inp.data[n.pos..r.pos]
  {
    if Bit(header, EMPTY) then Ok([], pos)
    else
      match DecodeUint(inp, pos, end)
      case Err(e, p) => Err(e, p)
      case Ok(n, p) => ReadBody(inp, p, end, n)
  }

  /** DecodeString (type 4) and DecodeBytes (type 5). */
  function DecodeTyped(t: nat, inp: Input, pos: nat, end: nat): (r: Res<bytes>)
    requires pos <= |inp.data|
    ensures Within(inp, pos, end, r)
    ensures r.Ok? ==> r.pos > pos
  {
    match ReadType(inp, pos, end)
    case Err(e, p) => Err(e, p)
    case Ok(h, p) => if h % 16 == t then DecodeBody(h, inp, p, end) else Err(WrongType, p)
  }

  /** proto/float.go:42-65, the value kept as its bits. */
  function DecodeFloat(header: byte, inp: Input, pos: nat, end: nat): (r: Res<Decoded>)
    requires pos <= |inp.data|
    ensures Within(inp, pos, end, r)
  {
    var wide := Bit(header, WIDE);
    if Bit(header, FLOAT_ZERO) then Ok(DFloat(wide, 0), pos)
    else
      match ReadFull(inp, pos, end, if wide then 8 else 4)
      case Err(e, p) => Err(e, p)
      case Ok(bs, p) => Ok(DFloat(wide, FromBE(bs)), p)
  }

  function DecodeAny(inp: Input, pos: nat, end: nat): (r: Res<Decoded>)
    requires pos <= |inp.data|
    ensures Within(inp, pos, end, r)
    ensures r.Ok? ==> r.pos > pos
    decreases |inp.data| - pos, 0
  {
    match ReadType(inp, pos, end)
    case Err(e, p) => Err(e, p)
    case Ok(h, p) =>
      match h % 16
      case 0 => Ok(DVoid, p)
      case 1 => (
        match DecodeScalar(h, inp, p, end)
        case Err(e, q) => Err(e, q)
        case Ok(s, q) => Ok(DInt(s.magnitude), q))
      case 2 => Ok(DBool(Bit(h, TRUE)), p)
      case 3 => DecodeFloat(h, inp, p, end)
      case 4 => (
        match DecodeBody(h, inp, p, end)
        case Err(e, q) => Err(e, q)
        case Ok(s, q) => Ok(DStr(s), q))
      case 5 => (
        match DecodeBody(h, inp, p, end)
        case Err(e, q) => Err(e, q)
        case Ok(s, q) => Ok(DBytes(s), q))
      case 6 => DecodeArray(h, inp, p, end)
      case 7 => DecodeMap(h, inp, p, end)
      case _ => DecodeStruct(inp, p, end)
  }

  /** proto/array.go:32-50. */
  function DecodeArray(header: byte, inp: Input, pos: nat, end: nat): (r: Res<Decoded>)
    requires pos <= |inp.data|
    ensures Within(inp, pos, end, r)
    decreases |inp.data| - pos, 2
  {
    if Bit(header, EMPTY) then Ok(DArray([]), pos)
    else
      match DecodeUint(inp, pos, end)
      case Err(e, p) => Err(e, p)
      case Ok(n, p) =>
        match DecodeMany(inp, p, end, n)
        case Err(e, q) => Err(e, q)
        case Ok(items, q) => Ok(DArray(items), q)
  }

  /** `n` values in a row: the loops of decodeArray, decodeMap and the parameter lists. */
  function DecodeMany(inp: Input, pos: nat, end: nat, n: nat): (r: Res<seq<Decoded>>)
    requires pos <= |inp.data|
    ensures Within(inp, pos, end, r)
    ensures r.Ok? ==> |r.value| == n && r.pos >= pos + n
    decreases |inp.data| - pos, 1
  {
    if n == 0 then Ok([], pos)
    else
      match DecodeAny(inp, pos, end)
      case Err(e, p) => Err(e, p)
      case Ok(v, p) =>
        match DecodeMany(inp, p, end, n - 1)
        case Err(e, q) => Err(e, q)
        case Ok(vs, q) => Ok([v] + vs, q)
  }

  /** proto/map.go:50-82: the byte count is read and ignored. */
  function DecodeMap(header: byte, inp: Input, pos: nat, end: nat): (r: Res<Decoded>)
    requires pos <= |inp.data|
    ensures Within(inp, pos, end, r)
    decreases |inp.data| - pos, 2
  {
    if Bit(header, EMPTY) then Ok(DMap([], []), pos)
    else
      match DecodeUint(inp, pos, end)
      case Err(e, p) => Err(e, p)
      case Ok(_, p) =>
        match DecodeUint(inp, p, end)
        case Err(e, q) => Err(e, q)
        case Ok(n, q) =>
          match DecodeMany(inp, q, end, n)
          case Err(e, s) => Err(e, s)
          case Ok(keys, s) =>
            match DecodeMany(inp, s, end, n)
            case Err(e, t) => Err(e, t)
            case Ok(values, t) => Ok(DMap(keys, values), t)
  }

  /** int(i) of a uint64. */
  function AsInt(i: nat): int { if i > MAX_INT then i - TWO_64 else i }

  /** proto/struct.go:129-173, up to the lookup of the identifier. */
  function DecodeStruct(inp: Input, pos: nat, end: nat): (r: Res<Decoded>)
    requires pos <= |inp.data|
    ensures Within(inp, pos, end, r)
    decreases |inp.data| - pos, 2
  {
    match DecodeTyped(4, inp, pos, end)
    case Err(e, p) => Err(e, p)
    case Ok(id, p) =>
      match DecodeUint(inp, p, end)
      case Err(e, q) => Err(e, q)
      case Ok(n, q) =>
        match DecodeFields(inp, q, Limit(q, end, n), map[])
        case Err(e, s) => Err(e, s)
        case Ok(fields, s) => if id in inp.known then Ok(DStruct(id, fields), s) else Err(UnknownStruct, s)
  }

  /** proto/struct.go:147-160: fields until the limited reader says EOF. */
  function DecodeFields(inp: Input, pos: nat, end: nat, fields: map<int, Decoded>): (r: Res<map<int, Decoded>>)
    requires pos <= |inp.data|
    ensures Within(inp, pos, end, r)
    decreases |inp.data| - pos, 1
  {
    match DecodeUint(inp, pos, end)
    case Err(e, p) => if e == EOF then Ok(fields, p) else Err(e, p)
    case Ok(i, p) =>
      match DecodeAny(inp, p, end)
      case Err(e, q) => Err(e, q)
      case Ok(v, q) => DecodeFields(inp, q, end, fields[AsInt(i) := v])
  }

  /**
   * A nested struct stops at its own announced length and at every length around it; a length
   * beyond the int64 range, which turns negative, makes an empty struct of it.
   */
  lemma StructStaysWithinLimit(inp: Input, pos: nat, end: nat, n: nat, fields: map<int, Decoded>)
    requires pos <= |inp.data| && pos <= end
    ensures DecodeFields(inp, pos, Limit(pos, end, n), fields).pos <= pos + n
    ensures DecodeFields(inp, pos, Limit(pos, end, n), fields).pos <= end
    ensures n > MAX_INT ==> DecodeFields(inp, pos, Limit(pos, end, n), fields) == Ok(fields, pos)
  {
    assert Within(inp, pos, Limit(pos, end, n), DecodeFields(inp, pos, Limit(pos, end, n), fields));
  }
}
