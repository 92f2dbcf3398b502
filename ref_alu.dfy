/**
 * The reference ALU (solutions/alu.py): the opcode list is read as the
 * integer o0 + 2*o1 + 4*o2 + 8*o3 and dispatched on 0..8; ADD computes a
 * signed overflow bit, SUB and CMP use the reference subtractor, and any
 * other value gives eight zeros. Its bit-wise and shift helpers are the
 * ones of module Alu.
 */
module RefAlu {
  import opened Bits
  import opened Gates
  import opened Adders
  import RefAdders
  import opened Alu

  /** op_val: the opcode list read LSB first (any ints, as Python adds them). */
  function OpVal(opcode: seq<int>): int
    requires |opcode| >= 4
  {
    opcode[0] + opcode[1] * 2 + opcode[2] * 4 + opcode[3] * 8
  }

  /** _calculate_flags: Z is the NOR of the eight result bits, N = result[7]. */
  function RefFlags(result: seq<int>, carry: int, overflow: int): Flags
    requires |result| >= 8
  {
    var z := Not(Or(Or(Or(result[0], result[1]), Or(result[2], result[3])),
                    Or(Or(result[4], result[5]), Or(result[6], result[7]))));
    Flags(z, carry, result[7], overflow)
  }

  /** The operations that read b: ADD, SUB, AND, OR, XOR and CMP. */
  predicate RefReadsB(op: int)
  {
    0 <= op <= 4 || op == 8
  }

  /** ALU.__call__(a, b, opcode). */
  function Execute(a: seq<int>, b: seq<int>, opcode: seq<int>): AluOut
    requires |opcode| >= 4
    requires 0 <= OpVal(opcode) <= 8 ==> |a| >= 8
    requires RefReadsB(OpVal(opcode)) ==> |b| >= 8
  {
    var op := OpVal(opcode);
    if op == 0 then
      var (result, carry) := Ripple(a, b, 0, 8);
      var overflow := And(Xor(a[7], result[7]), And(Not(Xor(a[7], b[7])), 1));
      AluOut(result, RefFlags(result, carry, overflow))
    else if op == 1 then
      var (result, borrow, overflow) := RefAdders.Subtractor8(a, b);
      AluOut(result, RefFlags(result, borrow, overflow))
    else if op == 2 then AluOut(BitAnd(a, b), RefFlags(BitAnd(a, b), 0, 0))
    else if op == 3 then AluOut(BitOr(a, b), RefFlags(BitOr(a, b), 0, 0))
    else if op == 4 then AluOut(BitXor(a, b), RefFlags(BitXor(a, b), 0, 0))
    else if op == 5 then AluOut(BitNot(a), RefFlags(BitNot(a), 0, 0))
    else if op == 6 then
      var (result, carry) := ShiftLeft(a);
      AluOut(result, RefFlags(result, carry, 0))
    else if op == 7 then
      var (result, carry) := ShiftRight(a);
      AluOut(result, RefFlags(result, carry, 0))
    else if op == 8 then
      var (subResult, carry, overflow) := RefAdders.Subtractor8(a, b);
      AluOut(a, RefFlags(subResult, carry, overflow))
    else
      AluOut(Zeros(8), RefFlags(Zeros(8), 0, 0))
  }

  /** The NOR-tree zero flag agrees with the src all-zero test on bytes, and means value 0. */
  lemma RefFlagsSpec(result: seq<int>, carry: int, overflow: int)
    requires |result| == 8 && IsBits(result)
    ensures RefFlags(result, carry, overflow) == CalculateFlags(result, carry, overflow)
    ensures RefFlags(result, carry, overflow).z == (if Val(result) == 0 then 1 else 0)
  {
    FlagsSpec(result, carry, overflow);
  }

  /** ADD's result and carry are the ripple chain's; V is the sign-bit test on a, b and the result. */
  lemma RefAddShape(a: seq<int>, b: seq<int>)
    requires |a| == 8 && |b| == 8
    ensures var (r, c) := Ripple(a, b, 0, 8);
      Execute(a, b, OpAdd) == AluOut(r, RefFlags(r, c, And(Xor(a[7], r[7]), And(Not(Xor(a[7], b[7])), 1))))
  {
    hide Ripple;
  }

  /** ADD: the sum modulo 256 with the carry out, and V = 1 exactly on signed overflow. */
  lemma RefAddSpec(a: seq<int>, b: seq<int>)
    requires |a| == 8 && |b| == 8 && IsBits(a) && IsBits(b)
    ensures var out := Execute(a, b, OpAdd);
      && |out.result| == 8 && IsBits(out.result)
      && Val(out.result) == (Val(a) + Val(b)) % 256
      && out.flags.c == (if Val(a) + Val(b) >= 256 then 1 else 0)
      && (out.flags.v == 1 <==> SignedAddOverflows(a, b))
      && IsBit(out.flags.v)
  {
    hide Execute;
    hide Ripple;
    RefAddShape(a, b);
    RippleMod(a, b, 0, 8);
    var r := Ripple(a, b, 0, 8).0;
    Pow2Values();
    TopBit(a);
    TopBit(b);
    TopBit(r);
    ValRange(a);
    ValRange(b);
    var s := Val(a) + Val(b);
    if s >= 256 {
      DivModUnique(s, 256, 1, s - 256);
    } else {
      DivModUnique(s, 256, 0, s);
    }
  }

  /** The reference ALU reports the overflow of 127 + 1. */
  lemma RefAddOverflowExample()
    ensures Execute([1, 1, 1, 1, 1, 1, 1, 0], [1, 0, 0, 0, 0, 0, 0, 0], OpAdd).flags.v == 1
  {
    Val8([1, 1, 1, 1, 1, 1, 1, 0]);
    Val8([1, 0, 0, 0, 0, 0, 0, 0]);
    RefAddSpec([1, 1, 1, 1, 1, 1, 1, 0], [1, 0, 0, 0, 0, 0, 0, 0]);
  }

  /** SUB and CMP take borrow and overflow from the reference subtractor; CMP returns a. */
  lemma RefSubCmpSpec(a: seq<int>, b: seq<int>)
    requires |a| == 8 && |b| == 8 && IsBits(a) && IsBits(b)
    ensures var out := Execute(a, b, OpSub);
      && Val(out.result) == (Val(a) - Val(b)) % 256
      && out.flags.c == (if Val(a) < Val(b) then 1 else 0)
      && (out.flags.v == 1 <==> !(-128 <= BitsToInt(a, true) - BitsToInt(b, true) < 128))
    ensures Execute(a, b, OpCmp).result == a && Execute(a, b, OpCmp).flags == Execute(a, b, OpSub).flags
  {
    RefAdders.Subtractor8Spec(a, b);
  }

  /** Opcode values outside 0..8 give eight zeros with Z = 1 and C = N = V = 0. */
  lemma RefUnknownOpcode(a: seq<int>, b: seq<int>, opcode: seq<int>)
    requires |opcode| >= 4 && !(0 <= OpVal(opcode) <= 8)
    ensures Execute(a, b, opcode) == AluOut(Zeros(8), Flags(1, 0, 0, 0))
  {
  }

  /** A four-bit opcode list is the src constant of the same value. */
  lemma OpcodeLiteral(opcode: seq<int>)
    requires |opcode| == 4 && IsBits(opcode)
    ensures OpVal(opcode) == Val(opcode)
    ensures Val(opcode) == 0 ==> opcode == OpAdd
    ensures Val(opcode) == 1 ==> opcode == OpSub
    ensures Val(opcode) == 2 ==> opcode == OpAnd
    ensures Val(opcode) == 3 ==> opcode == OpOr
    ensures Val(opcode) == 4 ==> opcode == OpXor
    ensures Val(opcode) == 5 ==> opcode == OpNot
    ensures Val(opcode) == 6 ==> opcode == OpShl
    ensures Val(opcode) == 7 ==> opcode == OpShr
    ensures Val(opcode) == 8 ==> opcode == OpCmp
  {
    Val4(opcode);
    var v := Val(opcode);
    var named := [OpAdd, OpSub, OpAnd, OpOr, OpXor, OpNot, OpShl, OpShr, OpCmp];
    if 0 <= v <= 8 {
      NamedOpcode(v);
      ValInjective(opcode, named[v]);
    }
  }

  /** The v-th named opcode constant is the 4-bit pattern of v. */
  lemma NamedOpcode(v: int)
    requires 0 <= v <= 8
    ensures var lit := [OpAdd, OpSub, OpAnd, OpOr, OpXor, OpNot, OpShl, OpShr, OpCmp][v];
      |lit| == 4 && IsBits(lit) && Val(lit) == v
  {
    var lit := [OpAdd, OpSub, OpAnd, OpOr, OpXor, OpNot, OpShl, OpShr, OpCmp][v];
    Val4(lit);
  }

  /** The two ALUs agree on everything but V when the result and flags come from the same bits. */
  predicate AgreeButOverflow(x: AluOut, y: AluOut)
  {
    x.result == y.result && x.flags.z == y.flags.z && x.flags.c == y.flags.c && x.flags.n == y.flags.n
  }

  lemma AgreeAdd(a: seq<int>, b: seq<int>)
    requires |a| == 8 && |b| == 8 && IsBits(a) && IsBits(b)
    ensures AgreeButOverflow(Execute(a, b, OpAdd), Alu.Execute(a, b, OpAdd))
  {
    assert a[..8] == a && b[..8] == b;
    RippleValue(a, b, 0, 8);
    RefFlagsSpec(Ripple(a, b, 0, 8).0, Ripple(a, b, 0, 8).1, 0);
    assert OpVal(OpAdd) == 0;
  }

  lemma AgreeSubCmp(a: seq<int>, b: seq<int>)
    requires |a| == 8 && |b| == 8 && IsBits(a) && IsBits(b)
    ensures AgreeButOverflow(Execute(a, b, OpSub), Alu.Execute(a, b, OpSub))
    ensures AgreeButOverflow(Execute(a, b, OpCmp), Alu.Execute(a, b, OpCmp))
  {
    RefAdders.Subtractor8Spec(a, b);
    var r := RefAdders.Subtractor8(a, b);
    RefFlagsSpec(r.0, r.1, r.2);
    assert OpVal(OpSub) == 1 && OpVal(OpCmp) == 8;
  }

  lemma AgreeAndOr(a: seq<int>, b: seq<int>)
    requires |a| == 8 && |b| == 8 && IsBits(a) && IsBits(b)
    ensures Execute(a, b, OpAnd) == Alu.Execute(a, b, OpAnd)
    ensures Execute(a, b, OpOr) == Alu.Execute(a, b, OpOr)
  {
    BitwiseSpec(a, b);
    RefFlagsSpec(BitAnd(a, b), 0, 0);
    RefFlagsSpec(BitOr(a, b), 0, 0);
    assert OpVal(OpAnd) == 2 && OpVal(OpOr) == 3;
  }

  lemma AgreeXorNot(a: seq<int>, b: seq<int>)
    requires |a| == 8 && |b| == 8 && IsBits(a) && IsBits(b)
    ensures Execute(a, b, OpXor) == Alu.Execute(a, b, OpXor)
    ensures Execute(a, b, OpNot) == Alu.Execute(a, b, OpNot)
  {
    BitwiseSpec(a, b);
    RefFlagsSpec(BitXor(a, b), 0, 0);
    RefFlagsSpec(BitNot(a), 0, 0);
    assert OpVal(OpXor) == 4 && OpVal(OpNot) == 5;
  }

  lemma AgreeShift(a: seq<int>, b: seq<int>)
    requires |a| == 8 && |b| == 8 && IsBits(a) && IsBits(b)
    ensures Execute(a, b, OpShl) == Alu.Execute(a, b, OpShl)
    ensures Execute(a, b, OpShr) == Alu.Execute(a, b, OpShr)
  {
    ShiftLeftSpec(a);
    ShiftRightSpec(a);
    RefFlagsSpec(ShiftLeft(a).0, ShiftLeft(a).1, 0);
    RefFlagsSpec(ShiftRight(a).0, ShiftRight(a).1, 0);
    assert OpVal(OpShl) == 6 && OpVal(OpShr) == 7;
  }

  /**
   * On byte operands and a four-bit opcode of value 0..8, the two ALUs give
   * the same result and the same Z, C and N flags; V agrees for the logical
   * and shift operations and may differ for ADD, SUB and CMP.
   */
  lemma AlusAgree(a: seq<int>, b: seq<int>, opcode: seq<int>)
    requires |a| == 8 && |b| == 8 && IsBits(a) && IsBits(b)
    requires |opcode| == 4 && IsBits(opcode) && 0 <= Val(opcode) <= 8
    ensures AgreeButOverflow(Execute(a, b, opcode), Alu.Execute(a, b, opcode))
    ensures 2 <= Val(opcode) <= 7 ==> Execute(a, b, opcode) == Alu.Execute(a, b, opcode)
  {
    OpcodeLiteral(opcode);
    AgreeAdd(a, b);
    AgreeSubCmp(a, b);
    AgreeAndOr(a, b);
    AgreeXorNot(a, b);
    AgreeShift(a, b);
  }

  /** On byte operands every opcode gives an eight-bit result. */
  lemma ResultLength(a: seq<int>, b: seq<int>, opcode: seq<int>)
    requires |a| == 8 && |b| == 8 && |opcode| >= 4
    ensures |Execute(a, b, opcode).result| == 8
  {
    var op := OpVal(opcode);
    if op == 1 {
      assert |RefAdders.Subtractor8(a, b).0| == 8;
    }
  }
}
