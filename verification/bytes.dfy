/** Bytes and optional values shared by every part of the model. */
module Bytes {
  type byte = x: int | 0 <= x < 256

  datatype Option<+T> = None | Some(value: T)

  function Power2(n: nat): (p: nat)
    ensures p >= 1
  {
    if n == 0 then 1 else 2 * Power2(n - 1)
  }

  function BitXor(x: nat, y: nat): (r: nat)
    ensures r < 2
  {
    if x == y then 0 else 1
  }

  /** Exclusive-or of the low `n` binary digits of `a` and `b`, written without bit vectors. */
  function XorBits(a: nat, b: nat, n: nat): (r: nat)
    ensures r < Power2(n)
  {
    if n == 0 then 0 else BitXor(a % 2, b % 2) + 2 * XorBits(a / 2, b / 2, n - 1)
  }

  lemma {:induction false} XorBitsCancels(a: nat, b: nat, n: nat)
    requires a < Power2(n)
    ensures XorBits(XorBits(a, b, n), b, n) == a
  {
    if n > 0 {
      var y := XorBits(a / 2, b / 2, n - 1);
      XorBitsCancels(a / 2, b / 2, n - 1);
      var bit := BitXor(a % 2, b % 2);
      var x := bit + 2 * y;
      assert x == XorBits(a, b, n);
      assert x % 2 == bit;
      assert x / 2 == y;
    }
  }

  lemma PowerOf8()
    ensures Power2(8) == 256
  {
  }

  /** The C++ `a ^ b` on two bytes. */
  function Xor(a: byte, b: byte): (r: byte) {
    PowerOf8();
    XorBits(a, b, 8)
  }

  lemma XorCancels(a: byte, b: byte)
    ensures Xor(Xor(a, b), b) == a
  {
    PowerOf8();
    XorBitsCancels(a, b, 8);
  }

  /** Bit `k` of a byte. */
  function Bit(a: nat, k: nat): (r: nat)
    ensures r < 2
  {
    if k == 0 then a % 2 else Bit(a / 2, k - 1)
  }

  /** What the exclusive-or is: each bit of it says whether the two bits differ. */
  lemma {:induction false} XorBitsBit(a: nat, b: nat, n: nat, k: nat)
    requires k < n
    ensures Bit(XorBits(a, b, n), k) == 1 <==> Bit(a, k) != Bit(b, k)
  {
    var x := XorBits(a, b, n);
    assert x % 2 == BitXor(a % 2, b % 2) && x / 2 == XorBits(a / 2, b / 2, n - 1);
    if k > 0 { XorBitsBit(a / 2, b / 2, n - 1, k - 1); }
  }

  lemma {:induction false} BitIsQuotient(a: nat, k: nat)
    requires k < 8
    ensures Bit(a, k) == a / Power2(k) % 2
  {
    if k > 0 {
      BitIsQuotient(a / 2, k - 1);
      HalfThenQuotient(a, k);
    }
  }

  lemma {:induction false} HalfThenQuotient(a: nat, k: nat)
    requires 1 <= k < 8
    ensures a / 2 / Power2(k - 1) == a / Power2(k)
  {
    if k == 1 {
      assert Power2(1) == 2;
    } else if k == 2 {
      assert Power2(2) == 4 && a / 2 / 2 == a / 4;
    } else if k == 3 {
      assert Power2(3) == 8 && a / 2 / 4 == a / 8;
    } else if k == 4 {
      assert Power2(4) == 16 && a / 2 / 8 == a / 16;
    } else if k == 5 {
      assert Power2(5) == 32 && a / 2 / 16 == a / 32;
    } else if k == 6 {
      assert Power2(6) == 64 && a / 2 / 32 == a / 64;
    } else {
      assert Power2(7) == 128 && a / 2 / 64 == a / 128;
    }
  }

  lemma {:induction false} XorBit(a: byte, b: byte, k: nat)
    requires k < 8
    ensures Xor(a, b) / Power2(k) % 2 == 1 <==> a / Power2(k) % 2 != b / Power2(k) % 2
  {
    XorBitsBit(a, b, 8, k);
    BitIsQuotient(a, k);
    BitIsQuotient(b, k);
    BitIsQuotient(Xor(a, b), k);
  }
}
