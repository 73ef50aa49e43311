/** Bytes, XOR and fixed-width integers, as the tdata reader uses them. */
module TdataBytes {

  type Byte = b: nat | b < 256

  type Bytes = seq<Byte>

  // ---- exclusive or ----

  /** Bitwise XOR of two numbers, one binary digit at a time. */
  function Xor(a: nat, b: nat): nat {
    if a == 0 && b == 0 then 0 else (a % 2 + b % 2) % 2 + 2 * Xor(a / 2, b / 2)
  }

  predicate PowerOfTwo(n: nat) {
    n == 1 || (n > 1 && n % 2 == 0 && PowerOfTwo(n / 2))
  }

  lemma {:induction false} XorBound(a: nat, b: nat, n: nat)
    requires PowerOfTwo(n) && a < n && b < n
    ensures Xor(a, b) < n
    decreases n
  {
    if a != 0 || b != 0 {
      XorBound(a / 2, b / 2, n / 2);
    }
  }

  /** The recursive equation, which also holds at zero. */
  lemma XorUnfold(a: nat, b: nat)
    ensures Xor(a, b) == (a % 2 + b % 2) % 2 + 2 * Xor(a / 2, b / 2)
  {
  }

  lemma XorHalves(a: nat, b: nat)
    ensures Xor(a, b) % 2 == (a % 2 + b % 2) % 2 && Xor(a, b) / 2 == Xor(a / 2, b / 2)
  {
    XorUnfold(a, b);
    hide Xor;
    BitAndRest((a % 2 + b % 2) % 2, Xor(a / 2, b / 2));
  }

  lemma BitAndRest(bit: nat, rest: nat)
    requires bit < 2
    ensures (bit + 2 * rest) % 2 == bit && (bit + 2 * rest) / 2 == rest
  {
  }

  lemma {:induction false} XorTwice(a: nat, b: nat)
    ensures Xor(Xor(a, b), b) == a
    decreases a + b
  {
    if a != 0 || b != 0 {
      XorHalves(a, b);
      XorHalves(Xor(a, b), b);
      XorTwice(a / 2, b / 2);
      hide Xor;
      BitTwice(a % 2, b % 2);
    }
  }

  lemma BitTwice(x: nat, y: nat)
    requires x < 2 && y < 2
    ensures ((x + y) % 2 + y) % 2 == x
  {
  }

  /** The binary digit of weight 2^i. */
  function Digit(n: nat, i: nat): nat {
    if i == 0 then n % 2 else Digit(n / 2, i - 1)
  }

  /** Every digit of the result is set exactly when one of the two digits is and the other is not. */
  lemma {:induction false} XorDigits(a: nat, b: nat, i: nat)
    ensures Digit(a, i) in {0, 1} && Digit(b, i) in {0, 1}
    ensures Digit(Xor(a, b), i) == if Digit(a, i) == Digit(b, i) then 0 else 1
    decreases i
  {
    XorHalves(a, b);
    if i > 0 {
      XorDigits(a / 2, b / 2, i - 1);
    }
  }

  /** The bytes of `left ^ right`, digit by digit. */
  lemma XorBytesDigits(a: Bytes, b: Bytes, k: nat, i: nat)
    requires k < |a| == |b|
    ensures Digit(XorBytes(a, b)[k], i) == if Digit(a[k], i) == Digit(b[k], i) then 0 else 1
  {
    XorDigits(a[k], b[k], i);
  }

  function XorByte(a: Byte, b: Byte): Byte {
    assert PowerOfTwo(256) by {
      assert PowerOfTwo(2) && PowerOfTwo(4) && PowerOfTwo(8) && PowerOfTwo(16) && PowerOfTwo(32) && PowerOfTwo(64) &&
          PowerOfTwo(128);
    }
    XorBound(a, b, 256);
    Xor(a, b)
  }

  /** `bytes(left ^ right for left, right in zip(a, b))` for two strings of one length. */
  function XorBytes(a: Bytes, b: Bytes): (r: Bytes)
    requires |a| == |b|
    ensures |r| == |a|
  {
    seq(|a|, i requires 0 <= i < |a| => XorByte(a[i], b[i]))
  }

  lemma XorBytesTwice(a: Bytes, b: Bytes)
    requires |a| == |b|
    ensures XorBytes(XorBytes(a, b), b) == a
  {
    forall i | 0 <= i < |a|
      ensures XorBytes(XorBytes(a, b), b)[i] == a[i]
    {
      XorTwice(a[i], b[i]);
    }
  }

  // ---- integers ----

  function Range(width: nat): nat {
    if width == 0 then 1 else 256 * Range(width - 1)
  }

  function FromBig(b: Bytes): nat {
    if b == [] then 0 else FromBig(b[..|b| - 1]) * 256 + b[|b| - 1]
  }

  function ToBig(v: nat, width: nat): (r: Bytes)
    ensures |r| == width
  {
    if width == 0 then [] else ToBig(v / 256, width - 1) + [v % 256]
  }

  function FromLittle(b: Bytes): nat {
    if b == [] then 0 else b[0] + 256 * FromLittle(b[1..])
  }

  function ToLittle(v: nat, width: nat): (r: Bytes)
    ensures |r| == width
  {
    if width == 0 then [] else [v % 256] + ToLittle(v / 256, width - 1)
  }

  lemma ByteAndRest(byte: Byte, rest: nat)
    ensures (byte + 256 * rest) % 256 == byte && (byte + 256 * rest) / 256 == rest
  {
  }

  lemma {:induction false} BigRoundTrip(v: nat, width: nat)
    requires v < Range(width)
    ensures FromBig(ToBig(v, width)) == v
    decreases width
  {
    if width > 0 {
      BigRoundTrip(v / 256, width - 1);
      var b := ToBig(v, width);
      assert b[..|b| - 1] == ToBig(v / 256, width - 1);
    }
  }

  lemma {:induction false} BigImage(b: Bytes)
    ensures FromBig(b) < Range(|b|) && ToBig(FromBig(b), |b|) == b
    decreases |b|
  {
    if b != [] {
      BigImage(b[..|b| - 1]);
      ByteAndRest(b[|b| - 1], FromBig(b[..|b| - 1]));
      assert b == b[..|b| - 1] + [b[|b| - 1]];
    }
  }

  lemma {:induction false} LittleRoundTrip(v: nat, width: nat)
    requires v < Range(width)
    ensures FromLittle(ToLittle(v, width)) == v
    decreases width
  {
    if width > 0 {
      LittleRoundTrip(v / 256, width - 1);
      assert ToLittle(v, width)[1..] == ToLittle(v / 256, width - 1);
    }
  }

  lemma {:induction false} LittleImage(b: Bytes)
    ensures FromLittle(b) < Range(|b|) && ToLittle(FromLittle(b), |b|) == b
    decreases |b|
  {
    if b != [] {
      LittleImage(b[1..]);
      ByteAndRest(b[0], FromLittle(b[1..]));
      var v := FromLittle(b);
      assert v % 256 == b[0] && v / 256 == FromLittle(b[1..]);
      assert b == [b[0]] + b[1..];
    }
  }

  /** Two's complement, big-endian. */
  function FromSigned(b: Bytes): int {
    var v := FromBig(b);
    if 2 * v >= Range(|b|) then v - Range(|b|) else v
  }

  function ToSigned(v: int, width: nat): (r: Bytes)
    requires InSigned(v, width)
    ensures |r| == width
  {
    ToBig(if v < 0 then v + Range(width) else v, width)
  }

  predicate InSigned(v: int, width: nat) {
    -(Range(width) as int) <= 2 * v < Range(width)
  }

  lemma SignedRoundTrip(v: int, width: nat)
    requires InSigned(v, width) && width > 0
    ensures FromSigned(ToSigned(v, width)) == v
  {
    BigRoundTrip(if v < 0 then v + Range(width) else v, width);
  }

  lemma SignedImage(b: Bytes)
    requires b != []
    ensures InSigned(FromSigned(b), |b|) && ToSigned(FromSigned(b), |b|) == b
  {
    BigImage(b);
  }

  lemma Widths()
    ensures Range(4) == 0x1_0000_0000
    ensures Range(8) == 0x1_0000_0000_0000_0000
  {
    assert Range(2) == 0x1_0000;
    assert Range(3) == 0x100_0000;
    assert Range(5) == 0x100_0000_0000;
    assert Range(6) == 0x1_0000_0000_0000;
  }
}
