/**
 * The 8-bit register and the register file (src/computer/registers.py;
 * solutions/registers.py holds the same code).
 *
 * A Register8 owns eight D flip-flops that its `clock` drives in a loop.
 * Here the flip-flops are the `Sequential.FlipFlop` values of the register,
 * updated by the same edge function `DffClock` the DFlipFlop class follows.
 * The register file owns its Register8 objects and never replaces them, so
 * they are a `const` sequence of distinct objects.
 */
module Registers {
  import opened Bits
  import opened Sequential
  import opened Wrappers

  // ---------------------------------------------------------------------
  // Pure specification
  // ---------------------------------------------------------------------

  /** The register's read-out: the q output of each flip-flop, LSB first. */
  function RegValue(ffs: seq<FlipFlop>): (r: seq<int>)
    ensures |r| == |ffs|
  {
    seq(|ffs|, i requires 0 <= i < |ffs| => ffs[i].q)
  }

  /**
   * Register8.clock: with enable = 1 the loop clocks flip-flop i with data[i];
   * otherwise nothing happens. A data list shorter than eight bits stops the
   * loop at data[|data|] with IndexError, after the flip-flops before that
   * index were clocked, so only those change.
   */
  function RegClock(ffs: seq<FlipFlop>, data: seq<int>, enable: int, clk: int): (r: seq<FlipFlop>)
    requires |ffs| == 8
    ensures |r| == 8
  {
    if enable == 1 then seq(8, i requires 0 <= i < 8 => if i < |data| then DffClock(ffs[i], data[i], clk) else ffs[i])
    else ffs
  }

  /** Register8.clock raises IndexError exactly when enabled with fewer than eight data bits. */
  predicate RegClockRaises(data: seq<int>, enable: int)
  {
    enable == 1 && |data| < 8
  }

  /** The clock pulse RegisterFile.write gives the selected register: low, then high. */
  function RegPulse(ffs: seq<FlipFlop>, data: seq<int>): (r: seq<FlipFlop>)
    requires |ffs| == 8
    ensures |r| == 8
  {
    RegClock(RegClock(ffs, data, 1, 0), data, 1, 1)
  }

  /** A register holding zeros, as Register8() builds it. */
  function FreshRegister(): (r: seq<FlipFlop>)
    ensures |r| == 8
  {
    seq(8, i => FlipFlop(0, 0))
  }

  predicate WellFormed(regs: seq<seq<FlipFlop>>)
  {
    forall i :: 0 <= i < |regs| ==> |regs[i]| == 8
  }

  /** RegisterFile.read on the registers' states: out-of-range indices read eight zeros. */
  function FileRead(regs: seq<seq<FlipFlop>>, idx: int): (r: seq<int>)
    requires WellFormed(regs)
    ensures |r| == 8
  {
    if 0 <= idx < |regs| then RegValue(regs[idx]) else Zeros(8)
  }

  /**
   * RegisterFile.write on the registers' states: pulse the selected register
   * when enabled and in range. With fewer than eight data bits the low clock
   * raises IndexError part-way, so the high clock never happens.
   */
  function FileWrite(regs: seq<seq<FlipFlop>>, idx: int, data: seq<int>, enable: int): (r: seq<seq<FlipFlop>>)
    requires WellFormed(regs)
    ensures |r| == |regs| && WellFormed(r)
  {
    if enable == 1 && 0 <= idx < |regs| then
      regs[idx := if |data| >= 8 then RegPulse(regs[idx], data) else RegClock(regs[idx], data, 1, 0)]
    else regs
  }

  /** RegisterFile.write raises IndexError exactly on an enabled in-range write of fewer than eight bits. */
  predicate FileWriteRaises(regs: seq<seq<FlipFlop>>, idx: int, data: seq<int>, enable: int)
  {
    enable == 1 && 0 <= idx < |regs| && |data| < 8
  }

  /** With enable = 0 the register keeps its value (and its flip-flops' state). */
  lemma RegClockDisabled(ffs: seq<FlipFlop>, data: seq<int>, enable: int, clk: int)
    requires |ffs| == 8 && enable != 1
    ensures RegClock(ffs, data, enable, clk) == ffs
  {
  }

  /** A low-then-high pulse with enable = 1 stores the first eight data bits. */
  lemma RegPulseStores(ffs: seq<FlipFlop>, data: seq<int>)
    requires |ffs| == 8 && |data| >= 8
    ensures RegValue(RegPulse(ffs, data)) == data[..8]
  {
    forall i | 0 <= i < 8
      ensures RegValue(RegPulse(ffs, data))[i] == data[i]
    {
      DffPulse(ffs[i], data[i], data[i]);
    }
  }

  /** A fresh register file reads eight zeros at every address. */
  lemma FreshFileReadsZero(n: nat, idx: int)
    ensures FileRead(seq(n, i => FreshRegister()), idx) == Zeros(8)
  {
  }

  /** After an enabled in-range write, reading that address gives the data. */
  lemma WriteThenRead(regs: seq<seq<FlipFlop>>, idx: int, data: seq<int>)
    requires WellFormed(regs) && 0 <= idx < |regs| && |data| >= 8
    ensures FileRead(FileWrite(regs, idx, data, 1), idx) == data[..8]
  {
    RegPulseStores(regs[idx], data);
  }

  /**
   * A write changes at most the addressed register: every other register's
   * state is unchanged, and a disabled or out-of-range write changes nothing.
   */
  lemma WriteFrame(regs: seq<seq<FlipFlop>>, idx: int, data: seq<int>, enable: int, j: int)
    requires WellFormed(regs)
    requires 0 <= j < |regs|
    requires j != idx || enable != 1
    ensures FileWrite(regs, idx, data, enable)[j] == regs[j]
  {
  }

  /**
   * An enabled in-range write of fewer than eight bits raises after the low
   * clock only. That clock has no rising edge, so every register still reads
   * as before.
   */
  lemma ShortWriteKeepsValues(regs: seq<seq<FlipFlop>>, idx: int, data: seq<int>, j: int)
    requires WellFormed(regs) && 0 <= idx < |regs| && |data| < 8
    ensures FileWriteRaises(regs, idx, data, 1)
    ensures FileRead(FileWrite(regs, idx, data, 1), j) == FileRead(regs, j)
  {
  }

  /** An out-of-range address reads zeros before and after any write. */
  lemma OutOfRange(regs: seq<seq<FlipFlop>>, idx: int, data: seq<int>, enable: int)
    requires WellFormed(regs) && idx >= |regs|
    ensures FileWrite(regs, idx, data, enable) == regs
    ensures FileRead(regs, idx) == Zeros(8)
  {
  }

  // ---------------------------------------------------------------------
  // The classes
  // ---------------------------------------------------------------------

  class Register8 {
    var bits: seq<FlipFlop>

    constructor ()
      ensures bits == FreshRegister()
    {
      bits := FreshRegister();
    }

    function Value(): (r: seq<int>)
      reads this
      ensures |r| == |bits|
    {
      RegValue(bits)
    }

    /**
     * clock(data, enable, clk): clock each flip-flop when enabled, then read.
     * A short data list raises IndexError part-way through the loop.
     */
    method Clock(data: seq<int>, enable: int, clk: int) returns (out: Result<seq<int>>)
      requires |bits| == 8
      modifies this
      ensures bits == RegClock(old(bits), data, enable, clk)
      ensures out == if RegClockRaises(data, enable) then Fail("IndexError: list index out of range") else Ok(RegValue(bits))
    {
      if enable == 1 {
        for i := 0 to 8
          invariant |bits| == 8 && i <= |data|
          invariant forall k :: 0 <= k < i ==> bits[k] == DffClock(old(bits)[k], data[k], clk)
          invariant forall k :: i <= k < 8 ==> bits[k] == old(bits)[k]
        {
          if i == |data| {
            out := Fail("IndexError: list index out of range");
            return;
          }
          bits := bits[i := DffClock(bits[i], data[i], clk)];
        }
      }
      var value := Read();
      out := Ok(value);
    }

    method Read() returns (out: seq<int>)
      ensures out == RegValue(bits)
    {
      out := seq(|bits|, i requires 0 <= i < |bits| reads this => bits[i].q);
    }
  }

  class RegisterFile {
    const registers: seq<Register8>
    const numRegisters: nat

    /** The registers are distinct objects, one per index, each of eight flip-flops. */
    predicate Valid()
      reads this, registers
    {
      && |registers| == numRegisters
      && (forall i, j :: 0 <= i < j < |registers| ==> registers[i] != registers[j])
      && (forall i :: 0 <= i < |registers| ==> |registers[i].bits| == 8)
    }

    /** The flip-flop states of all registers, in index order. */
    function Regs(): (r: seq<seq<FlipFlop>>)
      reads this, registers
      ensures |r| == |registers|
      ensures Valid() ==> WellFormed(r)
    {
      seq(|registers|, i requires 0 <= i < |registers| reads registers => registers[i].bits)
    }

    constructor (n: nat)
      ensures Valid() && fresh(registers) && numRegisters == n
      ensures Regs() == seq(n, i => FreshRegister())
    {
      var regs: seq<Register8> := [];
      for k := 0 to n
        invariant |regs| == k
        invariant forall i :: 0 <= i < k ==> fresh(regs[i]) && regs[i].bits == FreshRegister()
        invariant forall i, j :: 0 <= i < j < k ==> regs[i] != regs[j]
      {
        var r := new Register8();
        regs := regs + [r];
      }
      registers := regs;
      numRegisters := n;
    }

    /** read(addr): the addressed register's value, or eight zeros past the last register. */
    method Read(addr: seq<int>) returns (out: seq<int>)
      requires Valid() && IsBits(addr)
      ensures out == FileRead(Regs(), Val(addr))
    {
      ValRange(addr);
      var idx := Val(addr);
      if idx < numRegisters {
        out := registers[idx].Read();
      } else {
        out := Zeros(8);
      }
    }

    /**
     * write(addr, data, enable, clk): pulse the addressed register low then
     * high; clk is ignored. Python's write returns None, which is Ok(()) here.
     */
    method Write(addr: seq<int>, data: seq<int>, enable: int, clk: int) returns (out: Result<()>)
      requires Valid() && IsBits(addr)
      modifies registers
      ensures Valid()
      ensures Regs() == FileWrite(old(Regs()), Val(addr), data, enable)
      ensures out == if FileWriteRaises(old(Regs()), Val(addr), data, enable) then Fail("IndexError: list index out of range") else Ok(())
    {
      ValRange(addr);
      if enable == 1 {
        var idx := Val(addr);
        if idx < numRegisters {
          var r := registers[idx];
          var low := r.Clock(data, 1, 0);
          if low.Fail? {
            assert Regs() == old(Regs())[idx := RegClock(old(Regs())[idx], data, 1, 0)];
            out := Fail(low.error);
            return;
          }
          var _ := r.Clock(data, 1, 1);
          assert Regs() == old(Regs())[idx := RegPulse(old(Regs())[idx], data)];
        }
      }
      out := Ok(());
    }

    /** read_two(addr1, addr2): both reads, from the same state. */
    method ReadTwo(addr1: seq<int>, addr2: seq<int>) returns (v1: seq<int>, v2: seq<int>)
      requires Valid() && IsBits(addr1) && IsBits(addr2)
      ensures v1 == FileRead(Regs(), Val(addr1)) && v2 == FileRead(Regs(), Val(addr2))
    {
      v1 := Read(addr1);
      v2 := Read(addr2);
    }
  }
}
