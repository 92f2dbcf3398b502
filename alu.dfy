/**
 * The ALU of src/computer/alu.py: a stateless dispatch on the 4-bit opcode
 * list, compared for exact equality with nine constants, over the gate-level
 * adders. The bit-wise and shift helpers are the same expressions in
 * solutions/alu.py and are shared with module RefAlu from here.
 */
module Alu {
  import opened Bits
  import opened Gates
  import opened Adders

  /** The flag dictionary {'Z', 'C', 'N', 'V'}. */
  datatype Flags = Flags(z: int, c: int, n: int, v: int)

  /** The ALU's answer: the result bits and the flags. */
  datatype AluOut = AluOut(result: seq<int>, flags: Flags)

  const OpAdd: seq<int> := [0, 0, 0, 0]
  const OpSub: seq<int> := [1, 0, 0, 0]
  const OpAnd: seq<int> := [0, 1, 0, 0]
  const OpOr: seq<int> := [1, 1, 0, 0]
  const OpXor: seq<int> := [0, 0, 1, 0]
  const OpNot: seq<int> := [1, 0, 1, 0]
  const OpShl: seq<int> := [0, 1, 1, 0]
  const OpShr: seq<int> := [1, 1, 1, 0]
  const OpCmp: seq<int> := [0, 0, 0, 1]

  // ---------------------------------------------------------------------
  // Helpers (_and, _or, _xor, _not, _shl, _shr)
  // ---------------------------------------------------------------------

  function BitAnd(a: seq<int>, b: seq<int>): (r: seq<int>)
    requires |a| >= 8 && |b| >= 8
    ensures |r| == 8
  {
    seq(8, i requires 0 <= i < 8 => And(a[i], b[i]))
  }

  function BitOr(a: seq<int>, b: seq<int>): (r: seq<int>)
    requires |a| >= 8 && |b| >= 8
    ensures |r| == 8
  {
    seq(8, i requires 0 <= i < 8 => Or(a[i], b[i]))
  }

  function BitXor(a: seq<int>, b: seq<int>): (r: seq<int>)
    requires |a| >= 8 && |b| >= 8
    ensures |r| == 8
  {
    seq(8, i requires 0 <= i < 8 => Xor(a[i], b[i]))
  }

  function BitNot(a: seq<int>): (r: seq<int>)
    requires |a| >= 8
    ensures |r| == 8
  {
    seq(8, i requires 0 <= i < 8 => Not(a[i]))
  }

  /** _shl: [0] + a[0:7], with the old MSB as carry. */
  function ShiftLeft(a: seq<int>): (r: (seq<int>, int))
    requires |a| >= 8
    ensures |r.0| == 8
  {
    ([0] + a[0..7], a[7])
  }

  /** _shr: a[1:8] + [0], with the old LSB as carry. */
  function ShiftRight(a: seq<int>): (r: (seq<int>, int))
    requires |a| >= 8
    ensures |r.0| == 8
  {
    (a[1..8] + [0], a[0])
  }

  /** On bytes the bitwise helpers are the per-bit boolean operations. */
  lemma BitwiseSpec(a: seq<int>, b: seq<int>)
    requires |a| == 8 && |b| == 8 && IsBits(a) && IsBits(b)
    ensures forall i :: 0 <= i < 8 ==> BitAnd(a, b)[i] == a[i] * b[i]
    ensures forall i :: 0 <= i < 8 ==> BitOr(a, b)[i] == a[i] + b[i] - a[i] * b[i]
    ensures forall i :: 0 <= i < 8 ==> (BitXor(a, b)[i] == 1 <==> a[i] != b[i]) && IsBit(BitXor(a, b)[i])
    ensures IsBits(BitNot(a)) && Val(BitNot(a)) == 255 - Val(a)
  {
    InvertValue(a);
    assert BitNot(a) == Invert(a);
    Pow2Values();
  }

  /** SHL doubles modulo 256 and carries out bit 7. */
  lemma ShiftLeftSpec(a: seq<int>)
    requires |a| == 8 && IsBits(a)
    ensures IsBits(ShiftLeft(a).0) && Val(ShiftLeft(a).0) == (2 * Val(a)) % 256 && ShiftLeft(a).1 == a[7]
  {
    var low := a[..7];
    assert a[0..7] == low;
    ValCons(0, low);
    ValRange(low);
    Pow2Values();
    assert Val(a) == Val(low) + a[7] * 128;
    DivModUnique(2 * Val(a), 256, a[7], 2 * Val(low));
  }

  /** SHR halves (rounding down) and carries out bit 0. */
  lemma ShiftRightSpec(a: seq<int>)
    requires |a| == 8 && IsBits(a)
    ensures IsBits(ShiftRight(a).0) && Val(ShiftRight(a).0) == Val(a) / 2 && ShiftRight(a).1 == a[0]
  {
    var r := a[1..] + [0];
    assert ShiftRight(a).0 == r by {
      assert a[1..8] == a[1..];
    }
    assert IsBits(r) by {
      forall i | 0 <= i < |r|
        ensures IsBit(r[i])
      {
        if i < 7 {
          assert r[i] == a[i + 1];
        }
      }
    }
    ValShiftDown(a);
  }

  // ---------------------------------------------------------------------
  // Flags and dispatch
  // ---------------------------------------------------------------------

  /** _calculate_flags: Z when every result bit equals 0, N = result[7]. */
  function CalculateFlags(result: seq<int>, carry: int, overflow: int): Flags
    requires |result| >= 8
  {
    var zero := if forall i :: 0 <= i < |result| ==> result[i] == 0 then 1 else 0;
    Flags(zero, carry, result[7], overflow)
  }

  /** Whether the operation reads its second operand. */
  predicate ReadsB(opcode: seq<int>)
  {
    opcode == OpAdd || opcode == OpSub || opcode == OpAnd || opcode == OpOr || opcode == OpXor || opcode == OpCmp
  }

  /** ALU.__call__(a, b, opcode). */
  function Execute(a: seq<int>, b: seq<int>, opcode: seq<int>): AluOut
    requires |a| >= 8 && (ReadsB(opcode) ==> |b| >= 8)
  {
    if opcode == OpAdd then
      var (result, carry) := Ripple(a, b, 0, 8);
      AluOut(result, CalculateFlags(result, carry, 0))
    else if opcode == OpSub then
      var (result, borrow, overflow) := Subtractor8(a, b);
      AluOut(result, CalculateFlags(result, borrow, overflow))
    else if opcode == OpAnd then AluOut(BitAnd(a, b), CalculateFlags(BitAnd(a, b), 0, 0))
    else if opcode == OpOr then AluOut(BitOr(a, b), CalculateFlags(BitOr(a, b), 0, 0))
    else if opcode == OpXor then AluOut(BitXor(a, b), CalculateFlags(BitXor(a, b), 0, 0))
    else if opcode == OpNot then AluOut(BitNot(a), CalculateFlags(BitNot(a), 0, 0))
    else if opcode == OpShl then
      var (result, carry) := ShiftLeft(a);
      AluOut(result, CalculateFlags(result, carry, 0))
    else if opcode == OpShr then
      var (result, carry) := ShiftRight(a);
      AluOut(result, CalculateFlags(result, carry, 0))
    else if opcode == OpCmp then
      var (subResult, borrow, overflow) := Subtractor8(a, b);
      AluOut(a, CalculateFlags(subResult, borrow, overflow))
    else
      AluOut(a, CalculateFlags(a, 0, 0))
  }

  // ---------------------------------------------------------------------
  // Properties
  // ---------------------------------------------------------------------

  /** The signed overflow condition for a + b on bytes. */
  predicate SignedAddOverflows(a: seq<int>, b: seq<int>)
  {
    !(-128 <= BitsToInt(a, true) + BitsToInt(b, true) < 128)
  }

  /** On a byte result, Z = 1 exactly when the value is 0, and N is the sign bit. */
  lemma FlagsSpec(result: seq<int>, carry: int, overflow: int)
    requires |result| == 8 && IsBits(result)
    ensures CalculateFlags(result, carry, overflow).z == (if Val(result) == 0 then 1 else 0)
    ensures CalculateFlags(result, carry, overflow).n == result[7]
    ensures CalculateFlags(result, carry, overflow).c == carry && CalculateFlags(result, carry, overflow).v == overflow
  {
    Val8(result);
  }

  /** ADD: the sum modulo 256, C = carry out, and V is always 0 (even for 127 + 1). */
  lemma AddSpec(a: seq<int>, b: seq<int>)
    requires |a| == 8 && |b| == 8 && IsBits(a) && IsBits(b)
    ensures var out := Execute(a, b, OpAdd);
      && |out.result| == 8 && IsBits(out.result)
      && Val(out.result) == (Val(a) + Val(b)) % 256
      && out.flags.c == (if Val(a) + Val(b) >= 256 then 1 else 0)
      && out.flags.v == 0
      && out.flags.z == (if Val(out.result) == 0 then 1 else 0)
  {
    Add8Value(a, b, 0);
    assert a[..8] == a && b[..8] == b;
    RippleValue(a, b, 0, 8);
    FlagsSpec(Ripple(a, b, 0, 8).0, Ripple(a, b, 0, 8).1, 0);
  }

  /** 127 + 1 = -128 overflows a signed byte, yet the src ALU reports V = 0. */
  lemma AddOverflowCounterexample()
    ensures SignedAddOverflows([1, 1, 1, 1, 1, 1, 1, 0], [1, 0, 0, 0, 0, 0, 0, 0])
    ensures Execute([1, 1, 1, 1, 1, 1, 1, 0], [1, 0, 0, 0, 0, 0, 0, 0], OpAdd).flags.v == 0
  {
    Val8([1, 1, 1, 1, 1, 1, 1, 0]);
    Val8([1, 0, 0, 0, 0, 0, 0, 0]);
  }

  /** SUB: the difference modulo 256 and C = borrow (a < b); V comes from the src subtractor. */
  lemma SubSpec(a: seq<int>, b: seq<int>)
    requires |a| == 8 && |b| == 8 && IsBits(a) && IsBits(b)
    ensures var out := Execute(a, b, OpSub);
      && |out.result| == 8 && IsBits(out.result)
      && Val(out.result) == (Val(a) - Val(b)) % 256
      && out.flags.c == (if Val(a) < Val(b) then 1 else 0)
      && out.flags.v == Subtractor8(a, b).2
      && out.flags.z == (if Val(a) == Val(b) then 1 else 0)
  {
    Subtractor8Value(a, b);
    var r := Subtractor8(a, b).0;
    FlagsSpec(r, Subtractor8(a, b).1, Subtractor8(a, b).2);
    ValRange(a);
    ValRange(b);
    var d := Val(a) - Val(b);
    if d >= 0 {
      DivModUnique(d, 256, 0, d);
    } else {
      DivModUnique(d, 256, -1, d + 256);
    }
  }

  /** CMP returns a unchanged with exactly the flags SUB would set. */
  lemma CmpSpec(a: seq<int>, b: seq<int>)
    requires |a| >= 8 && |b| >= 8
    ensures Execute(a, b, OpCmp).result == a
    ensures Execute(a, b, OpCmp).flags == Execute(a, b, OpSub).flags
  {
  }

  /** The logical and shift operations: their helpers' results, with C = V = 0 except the shifts' carry. */
  lemma LogicSpec(a: seq<int>, b: seq<int>)
    requires |a| >= 8 && |b| >= 8
    ensures Execute(a, b, OpAnd) == AluOut(BitAnd(a, b), CalculateFlags(BitAnd(a, b), 0, 0))
    ensures Execute(a, b, OpOr) == AluOut(BitOr(a, b), CalculateFlags(BitOr(a, b), 0, 0))
    ensures Execute(a, b, OpXor) == AluOut(BitXor(a, b), CalculateFlags(BitXor(a, b), 0, 0))
    ensures Execute(a, b, OpNot) == AluOut(BitNot(a), CalculateFlags(BitNot(a), 0, 0))
    ensures Execute(a, b, OpShl) == AluOut(ShiftLeft(a).0, CalculateFlags(ShiftLeft(a).0, a[7], 0))
    ensures Execute(a, b, OpShr) == AluOut(ShiftRight(a).0, CalculateFlags(ShiftRight(a).0, a[0], 0))
    ensures forall op :: op in [OpAnd, OpOr, OpXor, OpNot] ==> Execute(a, b, op).flags.c == 0 && Execute(a, b, op).flags.v == 0
    ensures Execute(a, b, OpShl).flags.c == a[7] && Execute(a, b, OpShl).flags.v == 0
    ensures Execute(a, b, OpShr).flags.c == a[0] && Execute(a, b, OpShr).flags.v == 0
  {
    hide Ripple;
    hide Subtractor8;
    hide BitAnd;
    hide BitOr;
    hide BitXor;
    hide BitNot;
    hide ShiftLeft;
    hide ShiftRight;
    hide CalculateFlags;
    FlagFields(BitAnd(a, b), 0, 0);
    FlagFields(BitOr(a, b), 0, 0);
    FlagFields(BitXor(a, b), 0, 0);
    FlagFields(BitNot(a), 0, 0);
    FlagFields(ShiftLeft(a).0, ShiftLeft(a).1, 0);
    FlagFields(ShiftRight(a).0, ShiftRight(a).1, 0);
    ShiftCarries(a);
  }

  /** The carry, overflow and sign flags are taken as given. */
  lemma FlagFields(result: seq<int>, carry: int, overflow: int)
    requires |result| >= 8
    ensures CalculateFlags(result, carry, overflow).c == carry
    ensures CalculateFlags(result, carry, overflow).v == overflow
    ensures CalculateFlags(result, carry, overflow).n == result[7]
  {
  }

  /** The shifts carry out bit 7 and bit 0. */
  lemma ShiftCarries(a: seq<int>)
    requires |a| >= 8
    ensures ShiftLeft(a).1 == a[7] && ShiftRight(a).1 == a[0]
  {
  }

  /** NOT ignores its second operand. */
  lemma NotIgnoresB(a: seq<int>, b1: seq<int>, b2: seq<int>)
    requires |a| >= 8
    ensures Execute(a, b1, OpNot) == Execute(a, b2, OpNot)
  {
  }

  /** Any opcode list other than the nine constants passes a through with C = V = 0. */
  lemma UnknownOpcode(a: seq<int>, b: seq<int>, opcode: seq<int>)
    requires |a| >= 8
    requires opcode !in [OpAdd, OpSub, OpAnd, OpOr, OpXor, OpNot, OpShl, OpShr, OpCmp]
    ensures Execute(a, b, opcode).result == a
    ensures Execute(a, b, opcode).flags.c == 0 && Execute(a, b, opcode).flags.v == 0
    ensures Execute(a, b, opcode).flags.n == a[7]
  {
  }
}
