/** Bytes, machine-integer bounds and the few bit-level facts the wire formats rely on. */
module Base {
  type byte = b: int | 0 <= b < 256
  type bytes = seq<byte>

  const TWO_64: nat := 0x1_0000_0000_0000_0000
  const TWO_32: nat := 0x1_0000_0000
  const TWO_16: nat := 0x1_0000

  /** The largest `int` (and `int64`) of a 64-bit Go platform; no slice is longer. */
  const MAX_INT: nat := 0x7FFF_FFFF_FFFF_FFFF

  datatype Option<+T> = None | Some(value: T)

  function Min(a: int, b: int): int { if a <= b then a else b }

  function Pow2(n: nat): (p: nat)
    ensures p > 0
  {
    if n == 0 then 1 else 2 * Pow2(n - 1)
  }

  /** Go's `|` on unsigned integers, bit by bit. */
  function BitOr(a: nat, b: nat): nat
    decreases a + b
  {
    if a == 0 && b == 0 then 0
    else (if a % 2 == 1 || b % 2 == 1 then 1 else 0) + 2 * BitOr(a / 2, b / 2)
  }

  /** Go's `<<` on a uint64: bits shifted past the top are lost. */
  function Shl64(x: nat, s: nat): (r: nat)
    ensures r < TWO_64
  {
    (x * Pow2(s)) % TWO_64
  }

  lemma {:induction false} OrZero(b: nat)
    ensures BitOr(0, b) == b
  {
    if b > 0 {
      OrZero(b / 2);
    }
  }

  /** Or-ing in bits that start above `a` adds them. */
  lemma {:induction false} OrDisjoint(a: nat, q: nat, s: nat)
    requires a < Pow2(s)
    ensures BitOr(a, q * Pow2(s)) == a + q * Pow2(s)
  {
    if s == 0 {
      OrZero(q);
    } else {
      var h := q * Pow2(s - 1);
      assert q * Pow2(s) == 2 * h;
      OrDisjoint(a / 2, q, s - 1);
      if a == 0 && h == 0 {
      } else {
        assert BitOr(a, 2 * h) == a % 2 + 2 * BitOr(a / 2, h);
      }
    }
  }

  /** Or-ing in bit `k` of a number of `k + 1` bits sets the top bit, whether or not it was set. */
  lemma {:induction false} OrTopBit(b: nat, k: nat)
    requires b < Pow2(k + 1)
    ensures BitOr(b, Pow2(k)) == b % Pow2(k) + Pow2(k)
  {
    if k == 0 {
      assert b == 0 || b == 1;
      assert BitOr(0, 0) == 0;
    } else {
      OrTopBit(b / 2, k - 1);
      HalfMod(b, Pow2(k - 1));
    }
  }

  lemma HalfMod(b: nat, m: nat)
    requires m > 0
    ensures b % (2 * m) == b % 2 + 2 * ((b / 2) % m)
  {
    var q, r := (b / 2) / m, (b / 2) % m;
    assert b == 2 * (m * q + r) + b % 2;
    assert b == (2 * m) * q + (2 * r + b % 2);
    ModUnique(b, 2 * m, q, 2 * r + b % 2);
  }

  lemma MulLeast(m: nat, d: int)
    ensures d >= 1 ==> m * d >= m
  {
    if d >= 1 {
      assert m * d == m * (d - 1) + m;
    }
  }

  lemma ModUnique(x: int, m: nat, q: int, r: nat)
    requires m > 0 && r < m && x == m * q + r
    ensures x % m == r && x / m == q
  {
    var d := q - x / m;
    assert m * d == x % m - r;
    MulLeast(m, d);
    MulLeast(m, -d);
  }

  /** Adding a multiple of the modulus changes nothing. */
  lemma ModShift(x: int, m: nat, k: int)
    requires m > 0
    ensures (x + m * k) % m == x % m
  {
    assert x + m * k == m * (x / m + k) + x % m;
    ModUnique(x + m * k, m, x / m + k, x % m);
  }

  /** A product may be reduced before it is used. */
  lemma ModProduct(x: int, y: nat, p: nat, m: nat)
    requires m > 0
    ensures (x + (y % m) * p) % m == (x + y * p) % m
  {
    var k := y / m;
    assert y == m * k + y % m;
    assert x + y * p == (x + (y % m) * p) + m * (k * p) by {
      assert (m * k + y % m) * p == (m * k) * p + (y % m) * p;
      assert (m * k) * p == m * (k * p);
    }
    ModShift(x + (y % m) * p, m, k * p);
  }

  lemma ModSum(x: nat, y: int, m: nat)
    requires m > 0
    ensures (x % m + y) % m == (x + y) % m
  {
    assert x + y == (x % m + y) + m * (x / m);
    ModShift(x % m + y, m, x / m);
  }

  /** Scaling by a factor of the modulus keeps only the digits that fit. */
  lemma ScaleMod(d: nat, p: nat, m: nat)
    requires p > 0 && m > 0
    ensures p * m > 0 && (d * p) % (p * m) == (d % m) * p
  {
    var q, k := d % m, d / m;
    MulPositive(p, m);
    assert d * p == (p * m) * k + q * p by {
      assert d == m * k + q;
      assert (m * k + q) * p == (m * k) * p + q * p;
      assert (m * k) * p == (p * m) * k;
    }
    assert q * p < p * m by {
      assert (q + 1) * p <= m * p;
    }
    ModUnique(d * p, p * m, k, q * p);
  }

  lemma MulPositive(a: nat, b: nat)
    requires a > 0 && b > 0
    ensures a * b > 0
  {
  }

  lemma DigitMod(d: nat, v: nat, m: nat)
    requires m > 0
    ensures (d + 128 * (v % m)) % m == (d + 128 * v) % m
  {
    ModProduct(d, v, 128, m);
  }

  /** One Horner step of a number read digit by digit, everything reduced mod `m`. */
  lemma HornerStep(x: nat, d: nat, v: nat, p: nat, m: nat)
    requires m > 0
    ensures (x + ((d + 128 * v) % m) * p) % m == ((x + d * p) % m + v * (p * 128)) % m
  {
    ModProduct(x, d + 128 * v, p, m);
    assert x + (d + 128 * v) * p == (x + d * p) + v * (p * 128);
    ModSum(x + d * p, v * (p * 128), m);
  }

  lemma MulAssoc(x: int, y: int, z: int)
    ensures x * (y * z) == (x * y) * z
  {
  }

  lemma {:induction false} Pow2Sum(a: nat, b: nat)
    ensures Pow2(a + b) == Pow2(a) * Pow2(b)
  {
    if a > 0 {
      Pow2Sum(a - 1, b);
      assert Pow2(a + b) == 2 * Pow2((a - 1) + b) && Pow2(a) == 2 * Pow2(a - 1);
      hide Pow2;
      MulAssoc(2, Pow2(a - 1), Pow2(b));
    }
  }

  lemma Pow2At64()
    ensures Pow2(64) == TWO_64
  {
    assert Pow2(8) == 256;
    hide Pow2;
    Pow2Sum(8, 8);
    Pow2Sum(16, 16);
    Pow2Sum(32, 32);
  }

  /** `bs` sits in `data` at offset `pos`. */
  predicate At(data: bytes, pos: nat, bs: bytes) {
    pos + |bs| <= |data| && data[pos..pos + |bs|] == bs
  }

  lemma AtConcat(data: bytes, pos: nat, a: bytes, b: bytes)
    ensures At(data, pos, a + b) <==> At(data, pos, a) && At(data, pos + |a|, b)
  {
    if At(data, pos, a + b) {
      var w := data[pos..pos + |a + b|];
      assert data[pos..pos + |a|] == w[..|a|] == a;
      assert data[pos + |a|..pos + |a| + |b|] == w[|a|..] == b;
    }
    if At(data, pos, a) && At(data, pos + |a|, b) {
      assert data[pos..pos + |a| + |b|] == data[pos..pos + |a|] + data[pos + |a|..pos + |a| + |b|];
    }
  }

  lemma AtHead(data: bytes, pos: nat, bs: bytes)
    requires bs != [] && At(data, pos, bs)
    ensures pos < |data| && data[pos] == bs[0] && At(data, pos + 1, bs[1..])
  {
    assert bs == bs[..1] + bs[1..];
    AtConcat(data, pos, bs[..1], bs[1..]);
    assert data[pos..pos + 1][0] == bs[0];
  }

  lemma SlicePrefix(data: bytes, pos: nat, n: nat, m: nat)
    requires pos + n <= |data| && m <= n
    ensures data[pos..pos + m] == data[pos..pos + n][..m]
  {
  }

  function Zeros(n: nat): (z: bytes)
    ensures |z| == n && forall i :: 0 <= i < n ==> z[i] == 0
  {
    seq(n, _ => 0)
  }

  /** The concatenation of a sequence of byte strings (`bytes.Join` with no separator). */
  function Flat(bs: seq<bytes>): bytes {
    if bs == [] then [] else bs[0] + Flat(bs[1..])
  }

  lemma {:induction false} FlatConcat(a: seq<bytes>, b: seq<bytes>)
    ensures Flat(a + b) == Flat(a) + Flat(b)
  {
    if a == [] {
      assert a + b == b;
    } else {
      assert (a + b)[1..] == a[1..] + b;
      FlatConcat(a[1..], b);
    }
  }

  lemma FlatOne(x: bytes)
    ensures Flat([x]) == x
  {
    assert Flat([x]) == x + Flat([]);
  }

  // Big-endian integers (encoding/binary.BigEndian).

  function BE16(v: nat): (b: bytes)
    requires v < TWO_16
    ensures |b| == 2
  {
    [v / 256, v % 256]
  }

  function FromBE16(b: bytes): (v: nat)
    requires |b| == 2
    ensures v < TWO_16
    ensures BE16(v) == b
  {
    (b[0] as int) * 256 + b[1]
  }

  /** Big-endian bytes of a `n`-byte unsigned integer. */
  function BE(v: nat, n: nat): (b: bytes)
    ensures |b| == n
  {
    if n == 0 then [] else BE(v / 256, n - 1) + [v % 256]
  }

  function FromBE(b: bytes): nat {
    if b == [] then 0 else 256 * FromBE(b[..|b| - 1]) + b[|b| - 1]
  }

  lemma {:induction false} BERoundTrip(v: nat, n: nat)
    requires v < Pow2(8 * n)
    ensures FromBE(BE(v, n)) == v
  {
    if n > 0 {
      assert Pow2(8 * n) == 256 * Pow2(8 * (n - 1)) by { Pow2Sum(8, 8 * (n - 1)); }
      BERoundTrip(v / 256, n - 1);
      assert BE(v, n)[..n - 1] == BE(v / 256, n - 1);
    }
  }
}
