/**
 * What the decoders read from: bytes that arrive in blocks, a position, and an
 * io.LimitReader stack folded into one absolute end position (a LimitReader of
 * n bytes opened at `pos` ends at `pos + n`, and never past the one around it).
 */
module Readers {
  import opened Base

  datatype Error =
    | EOF
    | UnexpectedEOF
    | WouldBlock  // not an error of the source: the read waits
    | ClosedStream
    | StreamReset(code: nat)
    | UnknownType
    | WrongType
    | UnknownStruct
    | InvalidMessageKind
    | MessageKindMismatch

  /**
   * `cuts` holds the offsets at which one block ends and the next begins: a
   * single Read never crosses one. A bytes.Reader is an input without cuts.
   * `tail` is what the source answers once its bytes are used up, and `known`
   * the struct identifiers registered with the decoder.
   */
  datatype Input = Input(data: bytes, cuts: set<nat>, tail: Error, known: set<bytes>)

  /** The outcome of reading; `pos` is where the reader stands afterwards, also on error. */
  datatype Res<+T> = Ok(value: T, pos: nat) | Err(error: Error, pos: nat)

  /** An end position no read can reach: the reader is not limited. */
  function NoLimit(inp: Input): nat { |inp.data| + 1 }

  /** io.LimitReader(r, int64(n)): a count past the int64 range turns negative and yields nothing. */
  function Limit(pos: nat, end: nat, n: nat): (r: nat)
    ensures r <= end || r == pos
  {
    if n > MAX_INT then pos else Min(end, pos + n)
  }

  function BlockEnd(inp: Input, pos: nat): (r: nat)
    requires pos < |inp.data|
    ensures pos < r <= |inp.data|
    ensures forall c :: pos < c < r ==> c !in inp.cuts
    ensures r < |inp.data| ==> r in inp.cuts
    decreases |inp.data| - pos
  {
    if pos + 1 == |inp.data| || pos + 1 in inp.cuts then pos + 1 else BlockEnd(inp, pos + 1)
  }

  /** One Read into a buffer of `n` bytes: at most `n`, at most the limit, at most the current block. */
  function Read(inp: Input, pos: nat, end: nat, n: nat): (r: Res<bytes>)
    requires pos <= |inp.data|
    ensures pos <= r.pos <= |inp.data|
    ensures r.Ok? ==> r.pos <= end && r.value == inp.data[pos..r.pos] && |r.value| <= n
    ensures r.Ok? && n > 0 ==> r.pos > pos
    ensures r.Err? ==> r.pos == pos && (pos >= end || pos == |inp.data|)
  {
    if pos >= end then Err(EOF, pos)
    else if pos == |inp.data| then Err(inp.tail, pos)
    else
      var p := Min(pos + n, Min(end, BlockEnd(inp, pos)));
      Ok(inp.data[pos..p], p)
  }

  function ReadByte(inp: Input, pos: nat, end: nat): (r: Res<byte>)
    requires pos <= |inp.data|
    ensures pos <= r.pos <= |inp.data|
    ensures r.Ok? <==> pos < end && pos < |inp.data|
    ensures r.Ok? ==> r.pos == pos + 1 && r.value == inp.data[pos]
    ensures r.Err? ==> r.pos == pos
  {
    match Read(inp, pos, end, 1)
    case Err(e, p) => Err(e, p)
    case Ok(bs, p) => Ok(bs[0], p)
  }

  /** io.ReadFull, its loop unrolled: `started` once some bytes have been read. */
  function ReadFull(inp: Input, pos: nat, end: nat, n: nat, started: bool := false): (r: Res<bytes>)
    requires pos <= |inp.data|
    ensures pos <= r.pos <= |inp.data|
    ensures r.Ok? ==> r.pos == pos + n && r.value == inp.data[pos..pos + n]
    ensures r.Ok? && n > 0 ==> r.pos <= end
    ensures r.pos <= end || r.pos == pos
    ensures r.Ok? <==> pos + n <= |inp.data| && (n == 0 || pos + n <= end)
    decreases n
  {
    if n == 0 then Ok([], pos)
    else
      match Read(inp, pos, end, n)
      case Err(e, p) => Err(if started && e == EOF then UnexpectedEOF else e, p)
      case Ok(bs, p) =>
        match ReadFull(inp, p, end, n - |bs|, true)
        case Err(e, q) => Err(e, q)
        case Ok(rest, q) => Ok(bs + rest, q)
  }

  /**
   * A string or bytes body: one Read into a zeroed buffer of `n` bytes whose
   * count is ignored, so a short read leaves zeros behind (proto/string.go:37-42).
   */
  function ReadBody(inp: Input, pos: nat, end: nat, n: nat): (r: Res<bytes>)
    requires pos <= |inp.data|
    ensures pos <= r.pos <= |inp.data|
    ensures r.pos <= end || r.pos == pos
    ensures r.Ok? ==> |r.value| == n && r.pos - pos <= n && r.value[..r.pos - pos] == inp.data[pos..r.pos]
  {
    match Read(inp, pos, end, n)
    case Err(e, p) => Err(e, p)
    case Ok(bs, p) => Ok(bs + Zeros(n - |bs|), p)
  }

  /** No block ends strictly inside the `n` bytes at `pos`. */
  ghost predicate Whole(cuts: set<nat>, pos: nat, n: nat) {
    forall c :: pos < c < pos + n ==> c !in cuts
  }

  lemma ReadBodyWhole(inp: Input, pos: nat, end: nat, body: bytes)
    requires body != [] && At(inp.data, pos, body) && pos + |body| <= end
    requires Whole(inp.cuts, pos, |body|)
    ensures ReadBody(inp, pos, end, |body|) == Ok(body, pos + |body|)
  {
    assert BlockEnd(inp, pos) >= pos + |body|;
    assert body + Zeros(0) == body;
  }
}
