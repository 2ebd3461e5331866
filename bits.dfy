/** Bitwise OR, AND and XOR on unsigned integers, defined one bit at a time
    from the least significant bit up. */
module Bits {
  import opened Constants

  function Pow2(w: nat): (r: nat)
    ensures r >= 1
  {
    if w == 0 then 1 else 2 * Pow2(w - 1)
  }

  datatype BitOp = Or | And | Xor

  /** The operation on a single bit. */
  predicate ApplyBit(op: BitOp, p: bool, q: bool)
  {
    match op
    case Or => p || q
    case And => p && q
    case Xor => p != q
  }

  /** `a op b` on `w`-bit values: bit 0 from the bits 0 of `a` and `b`, the
      rest from `a / 2` and `b / 2`. */
  function Bitwise(op: BitOp, a: nat, b: nat, w: nat): (r: nat)
    requires a < Pow2(w) && b < Pow2(w)
    ensures r < Pow2(w)
    decreases w
  {
    if w == 0 then 0
    else (if ApplyBit(op, a % 2 == 1, b % 2 == 1) then 1 else 0) + 2 * Bitwise(op, a / 2, b / 2, w - 1)
  }

  /** `a | b`, `a & b` and `a ^ b` on `uint8_t` operands. */
  function Or8(a: u8, b: u8): (r: u8)
    ensures a <= r && b <= r
  {
    OrUpperBound(a, b, 8);
    Bitwise(Or, a, b, 8)
  }

  function And8(a: u8, b: u8): (r: u8)
    ensures r <= a && r <= b
  {
    AndLowerBound(a, b, 8);
    Bitwise(And, a, b, 8)
  }

  function Xor8(a: u8, b: u8): (r: u8)
    ensures Bitwise(Xor, r, b, 8) == a
  {
    XorInvolution(a, b, 8);
    Bitwise(Xor, a, b, 8)
  }

  /** `a | b` sets every bit that `a` or `b` sets, so it is at least each of them. */
  lemma {:induction false} OrUpperBound(a: nat, b: nat, w: nat)
    requires a < Pow2(w) && b < Pow2(w)
    ensures a <= Bitwise(Or, a, b, w) && b <= Bitwise(Or, a, b, w)
    decreases w
  {
    if w > 0 {
      OrUpperBound(a / 2, b / 2, w - 1);
    }
  }

  /** `a & b` keeps only bits set in both, so it is at most each of them. */
  lemma {:induction false} AndLowerBound(a: nat, b: nat, w: nat)
    requires a < Pow2(w) && b < Pow2(w)
    ensures Bitwise(And, a, b, w) <= a && Bitwise(And, a, b, w) <= b
    decreases w
  {
    if w > 0 {
      AndLowerBound(a / 2, b / 2, w - 1);
    }
  }

  /** OR and AND of a value with itself give the value back. */
  lemma {:induction false} OrAndIdempotent(a: nat, w: nat)
    requires a < Pow2(w)
    ensures Bitwise(Or, a, a, w) == a && Bitwise(And, a, a, w) == a
    decreases w
  {
    if w > 0 {
      OrAndIdempotent(a / 2, w - 1);
    } else {
      assert a == 0;
    }
  }

  /** Every bit set in both operands is counted twice by `a | b` plus
      `a & b`, every bit set in one of them once: the two add up to `a + b`. */
  lemma {:induction false} OrPlusAnd(a: nat, b: nat, w: nat)
    requires a < Pow2(w) && b < Pow2(w)
    ensures Bitwise(Or, a, b, w) + Bitwise(And, a, b, w) == a + b
    decreases w
  {
    if w > 0 {
      OrPlusAnd(a / 2, b / 2, w - 1);
    } else {
      assert a == 0 && b == 0;
    }
  }

  /** XOR of a value with itself clears it. */
  lemma {:induction false} XorSelfZero(a: nat, w: nat)
    requires a < Pow2(w)
    ensures Bitwise(Xor, a, a, w) == 0
    decreases w
  {
    if w > 0 {
      XorSelfZero(a / 2, w - 1);
    }
  }

  /** XOR with the same value twice gives back the original value. */
  lemma {:induction false} XorInvolution(a: nat, b: nat, w: nat)
    requires a < Pow2(w) && b < Pow2(w)
    ensures Bitwise(Xor, Bitwise(Xor, a, b, w), b, w) == a
    decreases w
  {
    if w > 0 {
      var c := Bitwise(Xor, a, b, w);
      assert c / 2 == Bitwise(Xor, a / 2, b / 2, w - 1);
      assert c % 2 == (if (a % 2 == 1) != (b % 2 == 1) then 1 else 0);
      XorInvolution(a / 2, b / 2, w - 1);
    } else {
      assert a == 0;
    }
  }
}
