/**
 * Binary values as the touch controller's serial link carries them:
 * most significant bit first, one bit per clock pulse.
 */
module Bits {
  import opened Arith

  function Pow2(n: nat): (p: nat)
    ensures p >= 1
  {
    if n == 0 then 1 else 2 * Pow2(n - 1)
  }

  /** The number whose binary digits, most significant first, are `bits`. */
  function Value(bits: seq<bool>): (v: nat)
    ensures v < Pow2(|bits|)
  {
    if |bits| == 0 then 0
    else 2 * Value(bits[..|bits| - 1]) + (if bits[|bits| - 1] then 1 else 0)
  }

  lemma ValueSnoc(bits: seq<bool>, b: bool)
    ensures Value(bits + [b]) == 2 * Value(bits) + (if b then 1 else 0)
  {
    assert (bits + [b])[..|bits|] == bits;
  }

  /** Adding bit `b` at weight `2^(i-1)` to `v` shifted by `i` is shifting `2v + b` by `i - 1`. */
  lemma AccumulateBit(v: nat, b: nat, i: nat)
    requires i >= 1
    ensures v * Pow2(i) + b * Pow2(i - 1) == (2 * v + b) * Pow2(i - 1)
  {
    var p := Pow2(i - 1);
    assert Pow2(i) == 2 * p;
    assert v * (2 * p) == 2 * v * p;
  }

  /** Bit `i` of `v`, that is `(v >> i) & 1` read as a boolean. */
  function Bit(v: nat, i: nat): bool
  {
    v / Pow2(i) % 2 == 1
  }

  /** The low `n` bits of `v`, most significant first, as a shift register sends them. */
  function Encode(v: nat, n: nat): (bits: seq<bool>)
    ensures |bits| == n
  {
    seq(n, i requires 0 <= i < n => Bit(v, n - 1 - i))
  }

  /** Shifting right by `i + 1` is shifting right by one, then by `i`. */
  lemma ShiftRight(v: nat, i: nat)
    ensures v / Pow2(i + 1) == (v / 2) / Pow2(i)
  {
    var p := Pow2(i);
    var q, r := (v / 2) / p, (v / 2) % p;
    assert v / 2 == p * q + r;
    assert v == 2 * (p * q + r) + v % 2;
    assert v == (2 * p) * q + (2 * r + v % 2);
    DivMulUnique(v, 2 * p, q, 2 * r + v % 2);
  }

  lemma {:induction false} BitOfHalf(v: nat, i: nat)
    ensures Bit(v / 2, i) == Bit(v, i + 1)
  {
    ShiftRight(v, i);
  }

  /** Dropping the last bit of an encoding encodes the value shifted right by one. */
  lemma {:induction false} EncodeInit(v: nat, n: nat)
    requires n > 0
    ensures Encode(v, n)[..n - 1] == Encode(v / 2, n - 1)
    ensures Encode(v, n)[n - 1] == (v % 2 == 1)
  {
    forall i | 0 <= i < n - 1
      ensures Encode(v, n)[i] == Encode(v / 2, n - 1)[i]
    {
      BitOfHalf(v, n - 2 - i);
    }
    assert Encode(v, n)[n - 1] == Bit(v, 0);
    assert Pow2(0) == 1 && v / 1 == v;
  }

  /** Shifting right by one and reducing to `n - 1` bits, then shifting back in the low bit. */
  lemma HalfMod(v: nat, p: nat)
    requires p >= 1
    ensures 2 * (v / 2 % p) + v % 2 == v % (2 * p)
  {
    var h := v / 2;
    var q, r := h / p, h % p;
    assert h == p * q + r;
    assert v == 2 * h + v % 2;
    assert v == (2 * p) * q + (2 * r + v % 2);
    DivMulUnique(v, 2 * p, q, 2 * r + v % 2);
  }

  /** Decoding an `n`-bit encoding gives back the value, reduced to `n` bits. */
  lemma {:induction false} ValueOfEncode(v: nat, n: nat)
    ensures Value(Encode(v, n)) == v % Pow2(n)
  {
    if n > 0 {
      var e := Encode(v, n);
      EncodeInit(v, n);
      ValueOfEncode(v / 2, n - 1);
      assert e[..n - 1] == Encode(v / 2, n - 1);
      assert Value(e) == 2 * (v / 2 % Pow2(n - 1)) + v % 2;
      HalfMod(v, Pow2(n - 1));
    }
  }

  /** Encoding the value of a bit string, at its own width, gives the bits back. */
  lemma {:induction false} EncodeOfValue(bits: seq<bool>)
    ensures Encode(Value(bits), |bits|) == bits
  {
    var n := |bits|;
    if n > 0 {
      var v := Value(bits);
      var init := bits[..n - 1];
      assert v == 2 * Value(init) + (if bits[n - 1] then 1 else 0);
      DivMulUnique(v, 2, Value(init), if bits[n - 1] then 1 else 0);
      EncodeInit(v, n);
      EncodeOfValue(init);
      assert Encode(v, n) == Encode(v, n)[..n - 1] + [Encode(v, n)[n - 1]];
      assert bits == init + [bits[n - 1]];
    }
  }

  /** A value that fits in `n` bits survives encoding and decoding unchanged. */
  lemma RoundTrip(v: nat, n: nat)
    requires v < Pow2(n)
    ensures Value(Encode(v, n)) == v
  {
    ValueOfEncode(v, n);
    DivMulUnique(v, Pow2(n), 0, v);
  }
}
