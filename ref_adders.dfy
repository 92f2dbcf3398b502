/**
 * The reference subtractor (solutions/adders.py). Its half adder, full
 * adder, ripple adder and two's complement are the expressions of
 * src/computer/adders.py and are shared from module Adders; only the
 * subtractor's overflow bit differs.
 */
module RefAdders {
  import opened Bits
  import opened Gates
  import opened Adders

  /** subtractor_8bit: a + NOT(b) + 1; overflow when the operand signs differ and the result's sign is not a's. */
  function Subtractor8(a: seq<int>, b: seq<int>): (seq<int>, int, int)
    requires |a| >= 8 && |b| >= 8
  {
    var (result, carry) := Ripple(a, Invert(b), 1, 8);
    var borrow := Not(carry);
    var overflow := And(Xor(a[7], b[7]), Xor(a[7], result[7]));
    (result, borrow, overflow)
  }

  /** The signed (two's complement) reading of a byte. */
  function Signed(s: seq<int>): int
  {
    BitsToInt(s, true)
  }

  /**
   * Difference and borrow as in the src subtractor; the overflow bit is set
   * exactly when the signed difference leaves [-128, 127], and otherwise the
   * signed reading of the result is that difference.
   */
  lemma Subtractor8Spec(a: seq<int>, b: seq<int>)
    requires |a| == 8 && |b| == 8 && IsBits(a) && IsBits(b)
    ensures var (r, borrow, v) := Subtractor8(a, b);
      && IsBits(r) && |r| == 8
      && Val(r) == (Val(a) - Val(b)) % 256
      && borrow == (if Val(a) < Val(b) then 1 else 0)
      && (v == 1 <==> !(-128 <= Signed(a) - Signed(b) < 128))
      && IsBit(v)
      && (v == 0 ==> Signed(r) == Signed(a) - Signed(b))
  {
    SubtractValue(a, b);
    var r := Ripple(a, Invert(b), 1, 8).0;
    Pow2Values();
    TopBit(a);
    TopBit(b);
    TopBit(r);
    ValRange(a);
    ValRange(b);
    var d := Val(a) - Val(b);
    if d >= 0 {
      DivModUnique(d, 256, 0, d);
    } else {
      DivModUnique(d, 256, -1, d + 256);
    }
  }

  /** The reference subtractor gets 0 - 1 right: result -1, borrow 1, no overflow. */
  lemma Subtractor8ZeroMinusOne()
    ensures var (r, borrow, v) := Subtractor8([0, 0, 0, 0, 0, 0, 0, 0], [1, 0, 0, 0, 0, 0, 0, 0]);
      && Signed(r) == -1 && borrow == 1 && v == 0
  {
    var a, b := [0, 0, 0, 0, 0, 0, 0, 0], [1, 0, 0, 0, 0, 0, 0, 0];
    Val8(a);
    Val8(b);
    Subtractor8Spec(a, b);
  }

  /** Both subtractors compute the same difference and borrow; only the overflow bit differs. */
  lemma SubtractorsAgreeOnDifference(a: seq<int>, b: seq<int>)
    requires |a| >= 8 && |b| >= 8
    ensures Subtractor8(a, b).0 == Adders.Subtractor8(a, b).0
    ensures Subtractor8(a, b).1 == Adders.Subtractor8(a, b).1
  {
  }
}
