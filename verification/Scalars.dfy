/** Integers on the wire (proto/scalar.go). */
module Scalars {
  import opened Base
  import opened Readers
  import opened Varint

  datatype IntKind = U8 | U16 | U32 | U64 | I8 | I16 | I32 | I64 {
    predicate Signed() { I8? || I16? || I32? || I64? }

    /** 2^w for a width of w bits. */
    function Modulus(): nat {
      match this
      case U8 => 0x100 case I8 => 0x100
      case U16 => TWO_16 case I16 => TWO_16
      case U32 => TWO_32 case I32 => TWO_32
      case U64 => TWO_64 case I64 => TWO_64
    }

    function Lowest(): int { if Signed() then -(Modulus() / 2) else 0 }

    predicate Holds(v: int) { Lowest() <= v < Lowest() + Modulus() }
  }

  // Header bits of a scalar.
  const SIGNED: nat := 16
  const ZERO: nat := 32
  const NEGATIVE: nat := 64

  /** A value reduced to the two's complement range of a signed width. */
  function Wrap(k: IntKind, v: int): int {
    var r := v % k.Modulus();
    if k.Signed() && r >= k.Modulus() / 2 then r - k.Modulus() else r
  }

  /** The minima of int8, int16 and int32: negating one in its own width gives it back. */
  predicate Stuck(k: IntKind, v: int) { k in {I8, I16, I32} && v == k.Lowest() }

  /** The magnitude that reaches the wire: |v|, but for the stuck minima, which are sign-extended. */
  function Magnitude(k: IntKind, v: int): (m: nat)
    requires k.Holds(v)
    ensures m < TWO_64
  {
    if v >= 0 then v else if Stuck(k, v) then TWO_64 + v else -v
  }

  function ScalarBytes(k: IntKind, v: int): (bs: bytes)
    requires k.Holds(v)
    ensures |bs| > 0
  {
    var header := 1 + (if k.Signed() then SIGNED else 0) + (if v < 0 then NEGATIVE else 0);
    if v == 0 then [header + ZERO] else [header] + EncodeUint(Magnitude(k, v))
  }

  /** proto/scalar.go:41-80: the sign is cleared by a multiplication in the value's own width. */
  method EncodeScalar(k: IntKind, value: int) returns (bs: bytes)
    requires k.Holds(value)
    ensures bs == ScalarBytes(k, value)
  {
    var v := value;
    var typeByte: byte := 1;
    if k.Signed() {
      typeByte := typeByte + SIGNED;
      if v < 0 {
        typeByte := typeByte + NEGATIVE;
        v := Wrap(k, v * -1);
      }
    }
    NegationWraps(k, value, v);
    if v == 0 {
      return [typeByte + ZERO];
    }
    var data := EncodeUint64(v % TWO_64);
    bs := [typeByte] + data;
  }

  lemma NegationWraps(k: IntKind, value: int, v: int)
    requires k.Holds(value)
    requires v == if k.Signed() && value < 0 then Wrap(k, value * -1) else value
    ensures v == 0 <==> value == 0
    ensures v % TWO_64 == Magnitude(k, value)
  {
    if k.Signed() && value < 0 {
      ModUnique(-value, k.Modulus(), 0, -value);
    }
    if v >= 0 {
      ModUnique(v, TWO_64, 0, v);
    } else {
      ModUnique(v, TWO_64, -1, TWO_64 + v);
    }
  }

  datatype Scalar = Scalar(signed: bool, negative: bool, magnitude: nat)

  /** proto/scalar.go:24-39 as a recursion on the remaining bytes: the value is reduced mod 2^64. */
  function DecodeUint(inp: Input, pos: nat, end: nat): (r: Res<nat>)
    requires pos <= |inp.data|
    ensures pos <= r.pos <= |inp.data|
    ensures r.pos <= end || r.pos == pos
    ensures r.Ok? ==> r.pos > pos && r.value < TWO_64
    decreases |inp.data| - pos
  {
    match ReadByte(inp, pos, end)
    case Err(e, p) => Err(e, p)
    case Ok(b, p) =>
      if b < 128 then Ok(b, p)
      else
        match DecodeUint(inp, p, end)
        case Err(e, q) => Err(e, q)
        case Ok(v, q) => Ok((b % 128 + 128 * v) % TWO_64, q)
  }

  /** proto/scalar.go:24-39: the loop with its accumulator and shift count. */
  method DecodeUint64(inp: Input, start: nat, end: nat) returns (r: Res<nat>)
    requires start <= |inp.data|
    ensures r == DecodeUint(inp, start, end)
  {
    hide BitOr, Shl64, Pow2, DecodeUint, Shifted;
    var x: nat, s: nat, pos: nat := 0, 0, start;
    ShiftedZero(DecodeUint(inp, start, end));
    while true
      invariant start <= pos <= |inp.data|
      invariant x < TWO_64 && x < Pow2(s)
      invariant DecodeUint(inp, start, end) == Shifted(x, s, DecodeUint(inp, pos, end))
      decreases |inp.data| - pos
    {
      LoopStep(inp, pos, end, x, s);
      var b := ReadByte(inp, pos, end);
      if b.Err? {
        return Err(b.error, b.pos);
      }
      if b.value < 0x80 {
        return Ok(BitOr(x, Shl64(b.value, s)), b.pos);
      }
      x := BitOr(x, Shl64(b.value % 128, s));
      s := s + 7;
      pos := b.pos;
    }
  }

  lemma ShiftedZero(r: Res<nat>)
    requires r.Ok? ==> r.value < TWO_64
    ensures Shifted(0, 0, r) == r && Pow2(0) == 1
  {
    if r.Ok? {
      ModUnique(r.value, TWO_64, 0, r.value);
    }
  }

  /** One turn of the loop, whichever way it goes. */
  lemma LoopStep(inp: Input, pos: nat, end: nat, x: nat, s: nat)
    requires pos <= |inp.data| && x < TWO_64 && x < Pow2(s)
    ensures var b := ReadByte(inp, pos, end);
      var whole := Shifted(x, s, DecodeUint(inp, pos, end));
      && (b.Err? ==> whole == Err(b.error, b.pos))
      && (b.Ok? && b.value < 128 ==> whole == Ok(BitOr(x, Shl64(b.value, s)), b.pos))
      && (b.Ok? && b.value >= 128 ==>
            var x' := BitOr(x, Shl64(b.value % 128, s));
            && x' < TWO_64 && x' < Pow2(s + 7)
            && whole == Shifted(x', s + 7, DecodeUint(inp, b.pos, end)))
  {
    hide BitOr, Shl64, Pow2;
    var b := ReadByte(inp, pos, end);
    if b.Ok? {
      OrShifted(x, b.value % 128, s);
      ShiftedStep(x, s, b.value, DecodeUint(inp, b.pos, end));
    }
  }

  /** The value of a varint whose later bytes decode to `r` and whose earlier ones to `x`, `s` bits of it. */
  ghost function Shifted(x: nat, s: nat, r: Res<nat>): Res<nat> {
    match r
    case Err(e, p) => r
    case Ok(v, p) => Ok((x + v * Pow2(s)) % TWO_64, p)
  }

  /** Or-ing a digit in above the accumulator is adding it, mod 2^64, at every shift count. */
  lemma OrShifted(x: nat, d: nat, s: nat)
    requires x < TWO_64 && x < Pow2(s) && d < 128
    ensures BitOr(x, Shl64(d, s)) == (x + d * Pow2(s)) % TWO_64
    ensures BitOr(x, Shl64(d, s)) < Pow2(s + 7)
  {
    var p := Pow2(s);
    var q := ShlIsMultiple(x, d, s);
    OrDisjoint(x, q, s);
    OrIsSum(x, d, q, p, TWO_64);
    assert Pow2(s + 7) == p * 128 by { Pow2Sum(s, 7); assert Pow2(7) == 128; }
  }

  lemma OrIsSum(x: nat, d: nat, q: nat, p: nat, m: nat)
    requires m > 0 && x < p && q <= d < 128
    requires (d * p) % m == q * p && x + q * p < m
    ensures (x + d * p) % m == x + q * p < p * 128
  {
    ModSum(d * p, x, m);
    ModUnique(x + q * p, m, 0, x + q * p);
    assert (q + 1) * p <= 128 * p;
  }

  lemma ShlIsMultiple(x: nat, d: nat, s: nat) returns (q: nat)
    requires x < TWO_64 && x < Pow2(s) && d < 128
    ensures Shl64(d, s) == q * Pow2(s)
    ensures q <= d && x + q * Pow2(s) < TWO_64
  {
    Pow2At64();
    if s >= 64 {
      Pow2Sum(64, s - 64);
      MultipleVanishes(d, TWO_64, Pow2(s - 64), Pow2(s));
      q := 0;
    } else {
      Pow2Sum(s, 64 - s);
      q := d % Pow2(64 - s);
      BelowNextMultiple(x, d, Pow2(s), Pow2(64 - s), TWO_64);
    }
  }

  lemma MultipleVanishes(d: nat, m: nat, k: nat, p: nat)
    requires m > 0 && p == m * k
    ensures (d * p) % m == 0
  {
    assert d * (m * k) == m * (d * k);
    ModUnique(d * (m * k), m, d * k, 0);
  }

  lemma BelowNextMultiple(x: nat, d: nat, p: nat, k: nat, m: nat)
    requires x < p && k > 0 && m == p * k
    ensures m > 0 && (d * p) % m == (d % k) * p && x + (d % k) * p < m
    ensures d % k <= d
  {
    ScaleMod(d, p, k);
    var q := d % k;
    assert (q + 1) * p <= k * p;
    assert d == k * (d / k) + q;
  }

  lemma ShiftedStep(x: nat, s: nat, b: byte, rest: Res<nat>)
    ensures rest.Ok? ==>
      Shifted(x, s, Ok((b % 128 + 128 * rest.value) % TWO_64, rest.pos))
      == Shifted((x + (b % 128) * Pow2(s)) % TWO_64, s + 7, rest)
  {
    if rest.Ok? {
      assert Pow2(s + 7) == Pow2(s) * 128 by { Pow2Sum(s, 7); assert Pow2(7) == 128; }
      HornerStep(x, b % 128, rest.value, Pow2(s), TWO_64);
    }
  }

  // The decoder's reading of every terminated string.

  lemma DecodeUintUnfold(inp: Input, pos: nat, end: nat)
    requires pos < |inp.data| && pos < end
    ensures var b, rest := inp.data[pos], DecodeUint(inp, pos + 1, end);
      && (b < 128 ==> DecodeUint(inp, pos, end) == Ok(b, pos + 1))
      && (b >= 128 && rest.Ok? ==>
            DecodeUint(inp, pos, end) == Ok((b % 128 + 128 * rest.value) % TWO_64, rest.pos))
  {
  }

  /** decodeUint64 of any terminated byte string is its digit sum mod 2^64, and it reads exactly that string. */
  lemma {:induction false} DecodeUintDigits(inp: Input, pos: nat, end: nat, bs: bytes)
    requires Terminated(bs) && At(inp.data, pos, bs) && pos + |bs| <= end
    ensures DecodeUint(inp, pos, end) == Ok(DigitSum(bs) % TWO_64, pos + |bs|)
    decreases |bs|
  {
    hide At, DecodeUint;
    AtHead(inp.data, pos, bs);
    DecodeUintUnfold(inp, pos, end);
    if |bs| > 1 {
      DecodeUintDigits(inp, pos + 1, end, bs[1..]);
      DigitMod(bs[0] % 128, DigitSum(bs[1..]), TWO_64);
    } else {
      assert bs[1..] == [];
      assert DigitSum(bs) == bs[0] % 128 + 128 * 0;
    }
  }

  /** decodeUint64 inverts encodeUint64 for every uint64. */
  lemma DecodeUintInverts(inp: Input, pos: nat, end: nat, x: nat)
    requires x < TWO_64
    requires At(inp.data, pos, EncodeUint(x)) && pos + |EncodeUint(x)| <= end
    ensures DecodeUint(inp, pos, end) == Ok(x, pos + |EncodeUint(x)|)
  {
    hide *;
    EncodeUintMeaning(x);
    DecodeUintDigits(inp, pos, end, EncodeUint(x));
    ModUnique(x, TWO_64, 0, x);
  }

  predicate Bit(header: byte, mask: nat)
    requires mask > 0
  {
    (header / mask) % 2 == 1
  }

  /** proto/scalar.go:82-91. */
  function DecodeScalar(header: byte, inp: Input, pos: nat, end: nat): (r: Res<Scalar>)
    requires pos <= |inp.data|
    ensures pos <= r.pos <= |inp.data|
    ensures r.pos <= end || r.pos == pos
  {
    var signed, negative := Bit(header, SIGNED), Bit(header, NEGATIVE);
    if Bit(header, ZERO) then Ok(Scalar(signed, negative, 0), pos)
    else
      match DecodeUint(inp, pos, end)
      case Err(e, p) => Err(e, p)
      case Ok(v, p) => Ok(Scalar(signed, negative, v), p)
  }

  lemma ScalarDecodes(inp: Input, pos: nat, end: nat, k: IntKind, v: int)
    requires k.Holds(v)
    requires At(inp.data, pos, ScalarBytes(k, v)) && pos + |ScalarBytes(k, v)| <= end
    ensures inp.data[pos] % 16 == 1
    ensures DecodeScalar(inp.data[pos], inp, pos + 1, end)
         == Ok(Scalar(k.Signed(), v < 0, Magnitude(k, v)), pos + |ScalarBytes(k, v)|)
  {
    hide At, EncodeUint, DecodeUint, IntKind.Modulus;
    var bs := ScalarBytes(k, v);
    AtHead(inp.data, pos, bs);
    if v != 0 {
      assert bs[1..] == EncodeUint(Magnitude(k, v));
      DecodeUintInverts(inp, pos + 1, end, Magnitude(k, v));
    }
  }

  /**
   * Signedness, sign and magnitude survive exactly when the value is not the
   * minimum of a signed width below 64 bits, which comes back as 2^64 - 2^(w-1).
   */
  lemma ScalarRoundTrip(inp: Input, pos: nat, end: nat, k: IntKind, v: int)
    requires k.Holds(v)
    requires At(inp.data, pos, ScalarBytes(k, v)) && pos + |ScalarBytes(k, v)| <= end
    ensures var r := DecodeScalar(inp.data[pos], inp, pos + 1, end);
      && r.Ok? && r.pos == pos + |ScalarBytes(k, v)|
      && r.value.signed == k.Signed() && r.value.negative == (v < 0)
      && (r.value.magnitude == (if v < 0 then -v else v) <==> !Stuck(k, v))
      && (Stuck(k, v) ==> r.value.magnitude == TWO_64 - k.Modulus() / 2)
  {
    ScalarDecodes(inp, pos, end, k, v);
  }
}
