/**
 * Unsigned LEB128 (section 7.6 of DWARF Version 5) as proto/scalar.go writes it,
 * and the digit-sum reading against which it is judged.
 */
module Varint {
  import opened Base

  /** Every byte but the last carries the continuation bit. */
  predicate Terminated(bs: bytes) {
    |bs| > 0 && bs[|bs| - 1] < 128 && forall i :: 0 <= i < |bs| - 1 ==> bs[i] >= 128
  }

  /** The sum of the seven-bit digits times powers of 128, least significant first. */
  function DigitSum(bs: bytes): nat {
    if bs == [] then 0 else bs[0] % 128 + 128 * DigitSum(bs[1..])
  }

  function EncodeUint(x: nat): (bs: bytes)
    ensures |bs| > 0
  {
    if x < 128 then [x] else [x % 128 + 128] + EncodeUint(x / 128)
  }

  /** What is written is terminated and reads back, by the digit sum, as what was meant. */
  lemma {:induction false} EncodeUintMeaning(x: nat)
    ensures Terminated(EncodeUint(x))
    ensures DigitSum(EncodeUint(x)) == x
  {
    if x >= 128 {
      EncodeUintMeaning(x / 128);
      assert EncodeUint(x)[1..] == EncodeUint(x / 128);
    }
  }

  /** proto/scalar.go:15-22. */
  method EncodeUint64(value: nat) returns (buf: bytes)
    requires value < TWO_64
    ensures buf == EncodeUint(value)
  {
    var x := value;
    buf := [];
    while x >= 0x80
      invariant buf + EncodeUint(x) == EncodeUint(value)
    {
      var b := WithContinuation(x);
      EncodeStep(buf, x);
      buf := buf + [b];
      x := x / 128;
    }
    buf := buf + [x];
  }

  lemma EncodeStep(buf: bytes, x: nat)
    requires x >= 128
    ensures buf + EncodeUint(x) == (buf + [x % 128 + 128]) + EncodeUint(x / 128)
  {
  }

  /** `byte(x) | 0x80`. */
  function WithContinuation(x: nat): (b: nat)
    ensures b == x % 128 + 128
  {
    TopBitOfByte(x, 128);
    BitOr(x % 256, 0x80)
  }

  lemma TopBitOfByte(x: nat, m: nat)
    requires m == 128
    ensures BitOr(x % (2 * m), m) == x % m + m
  {
    assert Pow2(7) == 128 && Pow2(8) == 256;
    OrTopBit(x % (2 * m), 7);
    var q := x / (2 * m);
    assert x == m * (2 * q) + x % (2 * m);
    ModShift(x % (2 * m), m, 2 * q);
  }

  // Shortest form.

  lemma {:induction false} DigitSumBound(bs: bytes)
    ensures DigitSum(bs) < Pow2(7 * |bs|)
  {
    if bs != [] {
      DigitSumBound(bs[1..]);
      Pow2Sum(7, 7 * |bs[1..]|);
      assert Pow2(7) == 128;
    }
  }

  lemma {:induction false} EncodeUintLength(x: nat, n: nat)
    requires n > 0 && x < Pow2(7 * n)
    ensures |EncodeUint(x)| <= n
  {
    if x >= 128 {
      assert Pow2(7) == 128;
      if n > 1 {
        Pow2Sum(7, 7 * (n - 1));
        EncodeUintLength(x / 128, n - 1);
      }
    }
  }

  /** No terminated string that reads as `x` modulo 2^64 is shorter, and ten bytes always suffice. */
  lemma EncodeUintShortest(x: nat, bs: bytes)
    requires x < TWO_64
    requires Terminated(bs) && DigitSum(bs) % TWO_64 == x
    ensures |EncodeUint(x)| <= |bs|
    ensures |EncodeUint(x)| <= 10
  {
    DigitSumBound(bs);
    EncodeUintLength(x, |bs|);
    Pow2At64();
    Pow2Sum(64, 6);
    EncodeUintLength(x, 10);
  }
}
