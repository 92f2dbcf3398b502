/**
 * Adders built from the gates (src/computer/adders.py).
 *
 * half_adder, full_adder, ripple_carry_adder_8bit and twos_complement are
 * the same expressions in solutions/adders.py; the two files differ only in
 * the subtractor's overflow bit, so the solutions subtractor lives in
 * RefAdders and everything else is shared from here.
 */
module Adders {
  import opened Bits
  import opened Gates

  function HalfAdder(a: int, b: int): (int, int)
  {
    (Xor(a, b), And(a, b))
  }

  /** Two half adders; the carry out is the OR of their carries. */
  function FullAdder(a: int, b: int, cin: int): (int, int)
  {
    var (sum1, carry1) := HalfAdder(a, b);
    var (sumFinal, carry2) := HalfAdder(sum1, cin);
    (sumFinal, Or(carry1, carry2))
  }

  lemma HalfAdderSum(a: int, b: int)
    requires IsBit(a) && IsBit(b)
    ensures var (s, c) := HalfAdder(a, b); IsBit(s) && IsBit(c) && s + 2 * c == a + b
  {
  }

  lemma FullAdderSum(a: int, b: int, cin: int)
    requires IsBit(a) && IsBit(b) && IsBit(cin)
    ensures var (s, c) := FullAdder(a, b, cin); IsBit(s) && IsBit(c) && s + 2 * c == a + b + cin
  {
  }

  /**
   * The first n stages of the ripple chain: the n sum bits produced so far and
   * the carry leaving stage n (the state of the loop after n iterations).
   */
  function Ripple(a: seq<int>, b: seq<int>, cin: int, n: nat): (r: (seq<int>, int))
    requires n <= |a| && n <= |b|
    ensures |r.0| == n
  {
    if n == 0 then ([], cin)
    else
      var (prev, carry) := Ripple(a, b, cin, n - 1);
      var (s, c) := FullAdder(a[n - 1], b[n - 1], carry);
      (prev + [s], c)
  }

  /** n ripple stages add: Val(sum) + 2^n * carry == Val(a[..n]) + Val(b[..n]) + cin. */
  lemma {:induction false} RippleValue(a: seq<int>, b: seq<int>, cin: int, n: nat)
    requires n <= |a| && n <= |b|
    requires IsBits(a[..n]) && IsBits(b[..n]) && IsBit(cin)
    ensures IsBits(Ripple(a, b, cin, n).0) && IsBit(Ripple(a, b, cin, n).1)
    ensures Val(Ripple(a, b, cin, n).0) + Pow2(n) * Ripple(a, b, cin, n).1
            == Val(a[..n]) + Val(b[..n]) + cin
  {
    if n > 0 {
      var m := n - 1;
      var p := Pow2(m);
      assert a[..n][..m] == a[..m] && b[..n][..m] == b[..m];
      assert a[..n][m] == a[m] && b[..n][m] == b[m];
      assert Val(a[..n]) == Val(a[..m]) + a[m] * p;
      assert Val(b[..n]) == Val(b[..m]) + b[m] * p;
      RippleValue(a, b, cin, m);
      var r := Ripple(a, b, cin, m);
      FullAdderSum(a[m], b[m], r.1);
      var fa := FullAdder(a[m], b[m], r.1);
      assert Ripple(a, b, cin, n) == (r.0 + [fa.0], fa.1);
      assert (r.0 + [fa.0])[..m] == r.0;
      assert Val(r.0 + [fa.0]) == Val(r.0) + fa.0 * p;
      assert Pow2(n) == 2 * p;
      RippleStepArith(Val(r.0), fa.0, fa.1, r.1, p, a[m], b[m], Val(a[..m]) + Val(b[..m]) + cin);
    }
  }

  /** The arithmetic of one ripple stage: a full adder weighted by the stage's power of two. */
  lemma RippleStepArith(v: int, s: int, c: int, rc: int, p: int, x: int, y: int, low: int)
    requires v + p * rc == low && s + 2 * c == x + y + rc
    ensures v + s * p + (2 * p) * c == low + x * p + y * p
  {
    assert s * p + (2 * p) * c == (s + 2 * c) * p;
    assert (x + y + rc) * p == x * p + y * p + p * rc;
  }

  /** The ripple chain is symmetric in its two operands (on any ints). */
  lemma {:induction false} RippleCommutative(a: seq<int>, b: seq<int>, cin: int, n: nat)
    requires n <= |a| && n <= |b|
    ensures Ripple(a, b, cin, n) == Ripple(b, a, cin, n)
  {
    if n > 0 {
      RippleCommutative(a, b, cin, n - 1);
      var carry := Ripple(a, b, cin, n - 1).1;
      assert HalfAdder(a[n - 1], b[n - 1]) == HalfAdder(b[n - 1], a[n - 1]) by {
        Commutative(a[n - 1], b[n - 1]);
      }
    }
  }

  /** ripple_carry_adder_8bit: eight full adders chained from the LSB up. */
  method RippleCarryAdder8(a: seq<int>, b: seq<int>, cin: int) returns (result: seq<int>, carry: int)
    requires |a| >= 8 && |b| >= 8
    ensures (result, carry) == Ripple(a, b, cin, 8)
    ensures IsBits(a[..8]) && IsBits(b[..8]) && IsBit(cin) ==>
              IsBits(result) && IsBit(carry) && Val(result) + 256 * carry == Val(a[..8]) + Val(b[..8]) + cin
  {
    result := [];
    carry := cin;
    for i := 0 to 8
      invariant (result, carry) == Ripple(a, b, cin, i)
    {
      var sumBit;
      sumBit, carry := FullAdder(a[i], b[i], carry).0, FullAdder(a[i], b[i], carry).1;
      result := result + [sumBit];
    }
    if IsBits(a[..8]) && IsBits(b[..8]) && IsBit(cin) {
      RippleValue(a, b, cin, 8);
    }
  }

  /** A full-width ripple chain yields the sum modulo 2^n and a carry out exactly when the sum reaches 2^n. */
  lemma RippleMod(a: seq<int>, b: seq<int>, cin: int, n: nat)
    requires |a| == n && |b| == n && IsBits(a) && IsBits(b) && IsBit(cin)
    ensures IsBits(Ripple(a, b, cin, n).0) && IsBit(Ripple(a, b, cin, n).1)
    ensures Val(Ripple(a, b, cin, n).0) == (Val(a) + Val(b) + cin) % Pow2(n)
    ensures Ripple(a, b, cin, n).1 == if Val(a) + Val(b) + cin >= Pow2(n) then 1 else 0
  {
    assert a[..n] == a && b[..n] == b;
    RippleValue(a, b, cin, n);
    var r, c := Ripple(a, b, cin, n).0, Ripple(a, b, cin, n).1;
    ValRange(r);
    DivModUnique(Val(a) + Val(b) + cin, Pow2(n), c, Val(r));
  }

  /** The adder's documented behaviour on 8-bit values: the sum modulo 256 and the carry out. */
  lemma Add8Value(a: seq<int>, b: seq<int>, cin: int)
    requires |a| == 8 && |b| == 8 && IsBits(a) && IsBits(b) && IsBit(cin)
    ensures Val(Ripple(a, b, cin, 8).0) == (Val(a) + Val(b) + cin) % 256
    ensures Ripple(a, b, cin, 8).1 == if Val(a) + Val(b) + cin >= 256 then 1 else 0
  {
    RippleMod(a, b, cin, 8);
    Pow2Eight();
  }

  /** 255 + 1 wraps to 0 with a carry out. */
  lemma AddWrapExample()
    ensures Ripple([1, 1, 1, 1, 1, 1, 1, 1], [1, 0, 0, 0, 0, 0, 0, 0], 0, 8) == ([0, 0, 0, 0, 0, 0, 0, 0], 1)
  {
    var a, b, z := [1, 1, 1, 1, 1, 1, 1, 1], [1, 0, 0, 0, 0, 0, 0, 0], [0, 0, 0, 0, 0, 0, 0, 0];
    Val8(a);
    Val8(b);
    Val8(z);
    Add8Value(a, b, 0);
    RippleValue(a, b, 0, 8);
    assert a[..8] == a && b[..8] == b;
    ValInjective(Ripple(a, b, 0, 8).0, z);
  }

  /** [NOT(bit) for bit in bits] */
  function Invert(bits: seq<int>): (r: seq<int>)
    ensures |r| == |bits|
  {
    seq(|bits|, i requires 0 <= i < |bits| => Not(bits[i]))
  }

  /** Inverting n bits maps the value v to 2^n - 1 - v. */
  lemma {:induction false} InvertValue(bits: seq<int>)
    requires IsBits(bits)
    ensures IsBits(Invert(bits))
    ensures Val(Invert(bits)) == Pow2(|bits|) - 1 - Val(bits)
  {
    if |bits| > 0 {
      var n := |bits| - 1;
      assert Invert(bits)[..n] == Invert(bits[..n]);
      InvertValue(bits[..n]);
      assert Pow2(|bits|) == 2 * Pow2(n);
    }
  }

  lemma InvertInvolution(bits: seq<int>)
    requires IsBits(bits)
    ensures Invert(Invert(bits)) == bits
  {
  }

  /** subtractor_8bit as written in src: a + NOT(b) + 1, borrow = NOT(carry), and an overflow bit. */
  function Subtractor8(a: seq<int>, b: seq<int>): (seq<int>, int, int)
    requires |a| >= 8 && |b| >= 8
  {
    var (result, carry) := Ripple(a, Invert(b), 1, 8);
    var borrow := Not(carry);
    var overflow := if |a| == 8 then And(And(Not(a[7]), Not(b[7])), result[7]) else 0;
    var overflow' := if |a| == 8 then Or(overflow, And(And(a[7], b[7]), Not(result[7]))) else overflow;
    (result, borrow, overflow')
  }

  /** The difference and borrow of the two's complement subtraction (shared by both subtractors). */
  lemma SubtractValue(a: seq<int>, b: seq<int>)
    requires |a| == 8 && |b| == 8 && IsBits(a) && IsBits(b)
    ensures var (r, c) := Ripple(a, Invert(b), 1, 8);
      && IsBits(r) && IsBit(c)
      && Val(r) == (Val(a) - Val(b)) % 256
      && (c == 0 <==> Val(a) < Val(b))
  {
    InvertValue(b);
    RippleMod(a, Invert(b), 1, 8);
    Pow2Eight();
    ModShift(Val(a) - Val(b), 256);
  }

  /** The subtractor's result is (a - b) mod 256 and its borrow is 1 exactly when a < b. */
  lemma Subtractor8Value(a: seq<int>, b: seq<int>)
    requires |a| == 8 && |b| == 8 && IsBits(a) && IsBits(b)
    ensures var (r, borrow, _) := Subtractor8(a, b);
      && IsBits(r) && |r| == 8
      && Val(r) == (Val(a) - Val(b)) % 256
      && borrow == (if Val(a) < Val(b) then 1 else 0)
  {
    SubtractValue(a, b);
  }

  /**
   * The src overflow bit is the ADDITION overflow formula applied to a, b
   * and the difference: both operand signs equal and the result sign differs.
   */
  lemma Subtractor8OverflowFormula(a: seq<int>, b: seq<int>)
    requires |a| == 8 && |b| == 8 && IsBits(a) && IsBits(b)
    ensures var (r, _, v) := Subtractor8(a, b);
      v == (if a[7] == b[7] && r[7] != a[7] then 1 else 0)
  {
    SubtractValue(a, b);
  }

  /** 0 - 1 = -1 fits in a signed byte, yet the src subtractor reports overflow. */
  lemma Subtractor8OverflowCounterexample()
    ensures var (r, borrow, v) := Subtractor8([0, 0, 0, 0, 0, 0, 0, 0], [1, 0, 0, 0, 0, 0, 0, 0]);
      && BitsToInt(r, true) == -1 && borrow == 1 && v == 1
  {
    var a, b := [0, 0, 0, 0, 0, 0, 0, 0], [1, 0, 0, 0, 0, 0, 0, 0];
    Val8(a);
    Val8(b);
    Subtractor8Value(a, b);
    var r := Subtractor8(a, b).0;
    Pow2Values();
    assert Val(r) == 255;
    TopBit(r);
  }

  /** twos_complement: invert, then add one through the ripple adder. */
  function TwosComplement(bits: seq<int>): seq<int>
    requires |bits| >= 8
  {
    Ripple(Invert(bits), [1, 0, 0, 0, 0, 0, 0, 0], 0, 8).0
  }

  /** Negation modulo 256: 0 -> 0, 1 -> 255, 128 -> 128. */
  lemma TwosComplementValue(bits: seq<int>)
    requires |bits| == 8 && IsBits(bits)
    ensures |TwosComplement(bits)| == 8 && IsBits(TwosComplement(bits))
    ensures Val(TwosComplement(bits)) == (256 - Val(bits)) % 256
  {
    var one := [1, 0, 0, 0, 0, 0, 0, 0];
    InvertValue(bits);
    Val8(one);
    Pow2Values();
    assert Invert(bits)[..8] == Invert(bits) && one[..8] == one;
    RippleValue(Invert(bits), one, 0, 8);
    var (r, c) := Ripple(Invert(bits), one, 0, 8);
    ValRange(r);
    ValRange(bits);
    assert Val(r) + 256 * c == 256 - Val(bits);
    DivModUnique(256 - Val(bits), 256, c, Val(r));
  }

  /** Negating twice gives back the original byte. */
  lemma TwosComplementInvolution(bits: seq<int>)
    requires |bits| == 8 && IsBits(bits)
    ensures TwosComplement(TwosComplement(bits)) == bits
  {
    TwosComplementValue(bits);
    TwosComplementValue(TwosComplement(bits));
    ValRange(bits);
    var v := Val(bits);
    if v == 0 {
      DivModUnique(256, 256, 1, 0);
      DivModUnique(256 - 0, 256, 1, 0);
    } else {
      DivModUnique(256 - v, 256, 0, 256 - v);
      DivModUnique(256 - (256 - v), 256, 0, v);
    }
    ValInjective(TwosComplement(TwosComplement(bits)), bits);
  }
}
