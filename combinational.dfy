/**
 * Multiplexers, demultiplexers, decoders and priority encoders built from
 * the gates (solutions/combinational.py). Select lines are bit lists, least
 * significant first, so the selected index is `Val(sel)`.
 */
module Combinational {
  import opened Bits
  import opened Gates

  /** mux_2to1: OR(AND(a, NOT sel), AND(b, sel)). */
  function Mux2(a: int, b: int, sel: int): int
  {
    Or(And(a, Not(sel)), And(b, sel))
  }

  /** A tree of two 2-to-1 muxes on sel[0], then one on sel[1]. */
  function Mux4(inputs: seq<int>, sel: seq<int>): int
    requires |inputs| >= 4 && |sel| >= 2
  {
    var mux01 := Mux2(inputs[0], inputs[1], sel[0]);
    var mux23 := Mux2(inputs[2], inputs[3], sel[0]);
    Mux2(mux01, mux23, sel[1])
  }

  /** Two 4-to-1 muxes on the low and high halves, then a 2-to-1 mux on sel[2]. */
  function Mux8(inputs: seq<int>, sel: seq<int>): int
    requires |inputs| >= 8 && |sel| >= 3
  {
    var low := Mux4(inputs[0..4], sel[0..2]);
    var high := Mux4(inputs[4..8], sel[0..2]);
    Mux2(low, high, sel[2])
  }

  function Demux2(data: int, sel: int): (int, int)
  {
    (And(data, Not(sel)), And(data, sel))
  }

  function Demux4(data: int, sel: seq<int>): (r: seq<int>)
    requires |sel| >= 2
    ensures |r| == 4
  {
    var notSel0 := Not(sel[0]);
    var notSel1 := Not(sel[1]);
    [And(And(data, notSel1), notSel0), And(And(data, notSel1), sel[0]),
     And(And(data, sel[1]), notSel0), And(And(data, sel[1]), sel[0])]
  }

  function Decoder2to4(sel: seq<int>): (r: seq<int>)
    requires |sel| >= 2
    ensures |r| == 4
  {
    var notSel0 := Not(sel[0]);
    var notSel1 := Not(sel[1]);
    [And(notSel1, notSel0), And(notSel1, sel[0]), And(sel[1], notSel0), And(sel[1], sel[0])]
  }

  function Decoder3to8(sel: seq<int>): (r: seq<int>)
    requires |sel| >= 3
    ensures |r| == 8
  {
    var notSel0 := Not(sel[0]);
    var notSel1 := Not(sel[1]);
    var notSel2 := Not(sel[2]);
    [And(And(notSel2, notSel1), notSel0), And(And(notSel2, notSel1), sel[0]),
     And(And(notSel2, sel[1]), notSel0), And(And(notSel2, sel[1]), sel[0]),
     And(And(sel[2], notSel1), notSel0), And(And(sel[2], notSel1), sel[0]),
     And(And(sel[2], sel[1]), notSel0), And(And(sel[2], sel[1]), sel[0])]
  }

  /** encoder_4to2: [out0, out1] with out1 = in2 OR in3 and out0 = in3 OR (in1 AND NOT in2). */
  function Encoder4to2(inputs: seq<int>): (r: seq<int>)
    requires |inputs| >= 4
    ensures |r| == 2
  {
    var out1 := Or(inputs[2], inputs[3]);
    var out0 := Or(inputs[3], And(inputs[1], Not(inputs[2])));
    [out0, out1]
  }

  /** encoder_8to3 as written: out0 does not mask input 5 by input 6, nor input 1 by input 2. */
  function Encoder8to3(inputs: seq<int>): (r: seq<int>)
    requires |inputs| >= 8
    ensures |r| == 3
  {
    var anyUpper := Or(Or(inputs[4], inputs[5]), Or(inputs[6], inputs[7]));
    var out2 := anyUpper;
    var out1 := Or(Or(inputs[6], inputs[7]), And(Not(anyUpper), Or(inputs[2], inputs[3])));
    var out0 := Or(Or(inputs[5], inputs[7]), And(Not(anyUpper), Or(inputs[1], inputs[3])));
    [out0, out1, out2]
  }

  /** encoder_8to3 with out0 built the way encoder_4to2 builds it: an odd index counts only if the next one up is off. */
  function Encoder8to3Fixed(inputs: seq<int>): (r: seq<int>)
    requires |inputs| >= 8
    ensures |r| == 3
  {
    var anyUpper := Or(Or(inputs[4], inputs[5]), Or(inputs[6], inputs[7]));
    var out2 := anyUpper;
    var out1 := Or(Or(inputs[6], inputs[7]), And(Not(anyUpper), Or(inputs[2], inputs[3])));
    var upper0 := Or(And(inputs[5], Not(inputs[6])), inputs[7]);
    var lower0 := Or(And(inputs[1], Not(inputs[2])), inputs[3]);
    var out0 := Or(upper0, And(Not(anyUpper), lower0));
    [out0, out1, out2]
  }

  // ---------------------------------------------------------------------
  // Specifications
  // ---------------------------------------------------------------------

  /** The highest index holding a 1, or 0 when no input is active. */
  function HighestActive(s: seq<int>): (r: int)
    ensures 0 <= r < |s| || (r == 0 && |s| == 0)
  {
    if |s| == 0 then 0
    else if s[|s| - 1] == 1 then |s| - 1
    else HighestActive(s[..|s| - 1])
  }

  /** HighestActive is the maximum active index (both directions), and 0 with no active input. */
  lemma {:induction false} HighestActiveSpec(s: seq<int>)
    ensures (exists i :: 0 <= i < |s| && s[i] == 1) ==>
              s[HighestActive(s)] == 1 && forall j :: HighestActive(s) < j < |s| ==> s[j] != 1
    ensures (forall i :: 0 <= i < |s| ==> s[i] != 1) ==> HighestActive(s) == 0
  {
    if |s| > 0 && s[|s| - 1] != 1 {
      var p := s[..|s| - 1];
      HighestActiveSpec(p);
      if exists i :: 0 <= i < |s| && s[i] == 1 {
        var i :| 0 <= i < |s| && s[i] == 1;
        assert p[i] == 1;
      }
      assert forall j :: 0 <= j < |p| ==> p[j] == s[j];
    }
  }

  /** mux_2to1 passes a on sel = 0 and b on sel = 1. */
  lemma Mux2Selects(a: int, b: int, sel: int)
    requires IsBit(a) && IsBit(b) && IsBit(sel)
    ensures Mux2(a, b, sel) == if sel == 0 then a else b
  {
  }

  /** mux_4to1 returns inputs[Val(sel)]. */
  lemma Mux4Selects(inputs: seq<int>, sel: seq<int>)
    requires |inputs| == 4 && |sel| == 2 && IsBits(inputs) && IsBits(sel)
    ensures 0 <= Val(sel) < 4 && Mux4(inputs, sel) == inputs[Val(sel)]
  {
    Val2(sel);
  }

  /** mux_8to1 returns inputs[Val(sel)]. */
  lemma Mux8Selects(inputs: seq<int>, sel: seq<int>)
    requires |inputs| == 8 && |sel| == 3 && IsBits(inputs) && IsBits(sel)
    ensures 0 <= Val(sel) < 8 && Mux8(inputs, sel) == inputs[Val(sel)]
  {
    Val3(sel);
    Mux4Selects(inputs[0..4], sel[0..2]);
    Mux4Selects(inputs[4..8], sel[0..2]);
    Val2(sel[0..2]);
  }

  /** demux_1to2 routes data to output sel and 0 to the other. */
  lemma Demux2Routes(data: int, sel: int)
    requires IsBit(data) && IsBit(sel)
    ensures Demux2(data, sel) == if sel == 0 then (data, 0) else (0, data)
  {
  }

  /** demux_1to4 puts data at index Val(sel) and 0 everywhere else. */
  lemma Demux4Routes(data: int, sel: seq<int>)
    requires IsBit(data) && |sel| == 2 && IsBits(sel)
    ensures forall i :: 0 <= i < 4 ==> Demux4(data, sel)[i] == if i == Val(sel) then data else 0
  {
    Val2(sel);
  }

  /** decoder_2to4 is one-hot at index Val(sel). */
  lemma Decoder2to4OneHot(sel: seq<int>)
    requires |sel| == 2 && IsBits(sel)
    ensures forall i :: 0 <= i < 4 ==> Decoder2to4(sel)[i] == if i == Val(sel) then 1 else 0
  {
    Val2(sel);
  }

  /** decoder_3to8 is one-hot at index Val(sel). */
  lemma Decoder3to8OneHot(sel: seq<int>)
    requires |sel| == 3 && IsBits(sel)
    ensures forall i :: 0 <= i < 8 ==> Decoder3to8(sel)[i] == if i == Val(sel) then 1 else 0
  {
    Val3(sel);
  }

  /** encoder_4to2 outputs the highest active index (0 for no active input). */
  lemma Encoder4to2Priority(inputs: seq<int>)
    requires |inputs| == 4 && IsBits(inputs)
    ensures IsBits(Encoder4to2(inputs)) && Val(Encoder4to2(inputs)) == HighestActive(inputs)
  {
    Val2(Encoder4to2(inputs));
    assert inputs[..4] == inputs;
    HighestActivePrefix(inputs, 4);
    HighestActivePrefix(inputs, 3);
    HighestActivePrefix(inputs, 2);
    HighestActivePrefix(inputs, 1);
  }

  /** The as-written encoder_8to3 is right when exactly one input is active. */
  lemma Encoder8to3SingleInput(inputs: seq<int>, k: int)
    requires |inputs| == 8 && 0 <= k < 8
    requires forall i :: 0 <= i < 8 ==> inputs[i] == if i == k then 1 else 0
    ensures IsBits(Encoder8to3(inputs)) && Val(Encoder8to3(inputs)) == k
  {
    Val3(Encoder8to3(inputs));
    assert inputs[0] == (if 0 == k then 1 else 0) && inputs[1] == (if 1 == k then 1 else 0);
    assert inputs[2] == (if 2 == k then 1 else 0) && inputs[3] == (if 3 == k then 1 else 0);
    assert inputs[4] == (if 4 == k then 1 else 0) && inputs[5] == (if 5 == k then 1 else 0);
    assert inputs[6] == (if 6 == k then 1 else 0) && inputs[7] == (if 7 == k then 1 else 0);
  }

  /** Its out2 and out1 do respect priority: they are bits 2 and 1 of the highest active index. */
  lemma Encoder8to3HighBits(inputs: seq<int>)
    requires |inputs| == 8 && IsBits(inputs)
    ensures Encoder8to3(inputs)[2] == HighestActive(inputs) / 4
    ensures Encoder8to3(inputs)[1] == (HighestActive(inputs) / 2) % 2
  {
    HighestActiveUnfold8(inputs);
  }

  /** Inputs 5 and 6 active: the highest is 6, but the as-written encoder answers 7. */
  lemma Encoder8to3Counterexample()
    ensures HighestActive([0, 0, 0, 0, 0, 1, 1, 0]) == 6
    ensures Encoder8to3([0, 0, 0, 0, 0, 1, 1, 0]) == [1, 1, 1]
  {
    var s := [0, 0, 0, 0, 0, 1, 1, 0];
    assert s[..7] == [0, 0, 0, 0, 0, 1, 1];
  }

  /** The corrected encoder outputs the highest active index (0 for no active input). */
  lemma Encoder8to3FixedPriority(inputs: seq<int>)
    requires |inputs| == 8 && IsBits(inputs)
    ensures IsBits(Encoder8to3Fixed(inputs)) && Val(Encoder8to3Fixed(inputs)) == HighestActive(inputs)
  {
    Val3(Encoder8to3Fixed(inputs));
    HighestActiveUnfold8(inputs);
  }

  /** HighestActive of eight inputs, as a cascade of tests from index 7 down. */
  lemma HighestActiveUnfold8(s: seq<int>)
    requires |s| == 8
    ensures HighestActive(s) ==
      if s[7] == 1 then 7 else if s[6] == 1 then 6 else if s[5] == 1 then 5 else if s[4] == 1 then 4
      else if s[3] == 1 then 3 else if s[2] == 1 then 2 else if s[1] == 1 then 1 else 0
  {
    assert s[..8] == s;
    HighestActivePrefix(s, 8);
    HighestActivePrefix(s, 7);
    HighestActivePrefix(s, 6);
    HighestActivePrefix(s, 5);
    HighestActivePrefix(s, 4);
    HighestActivePrefix(s, 3);
    HighestActivePrefix(s, 2);
    HighestActivePrefix(s, 1);
  }

  /** One step of HighestActive on a prefix of s. */
  lemma HighestActivePrefix(s: seq<int>, k: nat)
    requires 0 < k <= |s|
    ensures HighestActive(s[..k]) == if s[k - 1] == 1 then k - 1 else HighestActive(s[..k - 1])
  {
    assert s[..k][..k - 1] == s[..k - 1];
  }
}
