/**
 * The CPU (solutions/cpu.py): a data path, a control unit, the reference
 * decoder and a clock. `step` fetches a word at the PC, decodes it,
 * executes it (HALT stops the CPU; anything else runs one execute_cycle
 * under the control unit's signals), adds one to the PC unless the
 * instruction is a jump or HALT, and ticks the clock. `run` repeats `step`
 * up to a cycle budget.
 *
 * The CPU never calls the control unit's next_state, so the control unit
 * stays in FETCH and every execute_cycle runs under the FETCH signals, which
 * move no data (`StepNeverExecutes`). `IntendedStep` is the step the
 * instruction set describes, with its own properties proved.
 */
module Cpu {
  import opened Bits
  import opened Sequential
  import opened Registers
  import opened Memory
  import opened Counters
  import opened Alu
  import RefAlu
  import Clock
  import opened Control
  import Isa
  import Decoder
  import RefDecoder
  import opened DataPath
  import opened Wrappers

  /** A snapshot of the CPU: data path, control state, halted, current instruction, clock state and cycle. */
  datatype CpuState = CpuState(
    dp: DpState, control: State, halted: bool, current: Option<Decoder.Decoded>, clockState: int, cycle: int)

  /** The mnemonics after which step does not add one to the PC. */
  const NoIncrement: seq<string> := ["JMP", "JZ", "JNZ", "HALT"]

  /** execute(decoded): HALT sets halted; anything else runs one cycle under the control unit's signals. */
  function ExecuteSpec(s: CpuState, d: Decoder.Decoded): (r: CpuState)
    requires WellFormedState(s.dp) && WellFormedDecoded(d)
    ensures WellFormedState(r.dp) && r.control == s.control
  {
    if d.opcodeName == "HALT" then s.(halted := true)
    else s.(dp := ExecCycle(s.dp, SignalsFor(s.control, d.opcodeName, s.dp.flags.z), d))
  }

  /** The reference decoder's output is well formed for the data path. */
  lemma RefDecodedWellFormed(instruction: seq<int>)
    ensures WellFormedDecoded(RefDecoder.Decode(instruction))
  {
    RefDecoder.DecodeFields(instruction);
  }

  /** The first half of step: fetch the word at the PC, load it into the IR and decode it with the reference decoder. */
  function FetchStage(s: CpuState): (r: CpuState)
    requires WellFormedState(s.dp)
    ensures WellFormedState(r.dp) && r.current.Some? && WellFormedDecoded(r.current.value)
    ensures r.control == s.control && r.halted == s.halted
  {
    var instruction := FetchWord(s.dp.pc, s.dp.mem);
    RefDecodedWellFormed(instruction);
    s.(dp := s.dp.(ir := instruction), current := Some(RefDecoder.Decode(instruction)))
  }

  /** The PC update after execute: one more, unless the mnemonic is a jump or HALT. */
  function AdvanceStage(s: CpuState, opname: string): (r: CpuState)
    requires WellFormedState(s.dp)
    ensures WellFormedState(r.dp) && r.control == s.control && r.halted == s.halted
  {
    if opname !in NoIncrement then s.(dp := s.dp.(pc := PcNext(s.dp.pc, 0, Zeros(8), 1, 0))) else s
  }

  /** clock.tick(). */
  function TickStage(s: CpuState): CpuState
  {
    var tick := Clock.TickNext(s.clockState, s.cycle);
    s.(clockState := tick.0, cycle := tick.1)
  }

  /** step(): the new state and the value step returns, which is True exactly when the CPU is not halted afterwards. */
  function StepSpec(s: CpuState): (r: (CpuState, bool))
    requires WellFormedState(s.dp)
    ensures WellFormedState(r.0.dp) && r.0.control == s.control
    ensures r.1 == !r.0.halted && (s.halted ==> r.0 == s)
  {
    if s.halted then (s, false)
    else
      var s1 := FetchStage(s);
      var d := s1.current.value;
      var s2 := AdvanceStage(ExecuteSpec(s1, d), d.opcodeName);
      (TickStage(s2), !s2.halted)
  }

  /** run(max_cycles): the final state and the number of steps that returned True. */
  function RunSpec(s: CpuState, maxCycles: int): (r: (CpuState, int))
    requires WellFormedState(s.dp)
    ensures WellFormedState(r.0.dp)
    decreases maxCycles
  {
    if maxCycles <= 0 then (s, 0)
    else
      var next := StepSpec(s);
      if !next.1 then (next.0, 0)
      else
        var rest := RunSpec(next.0, maxCycles - 1);
        (rest.0, rest.1 + 1)
  }

  // ---------------------------------------------------------------------
  // Properties of step and run
  // ---------------------------------------------------------------------

  /** A halted CPU's step changes nothing and returns False, so repeated steps are idempotent. */
  lemma HaltedStepIsIdle(s: CpuState)
    requires WellFormedState(s.dp) && s.halted
    ensures StepSpec(s) == (s, false)
  {
  }

  /** step never moves the control unit's state, so a CPU that starts in FETCH stays in FETCH. */
  lemma StepKeepsControlState(s: CpuState)
    requires WellFormedState(s.dp)
    ensures StepSpec(s).0.control == s.control
  {
  }

  /** halted is set by HALT and by nothing else, and a running step returns True exactly when it did not halt. */
  lemma StepHalts(s: CpuState)
    requires WellFormedState(s.dp) && !s.halted
    ensures var d := RefDecoder.Decode(FetchWord(s.dp.pc, s.dp.mem));
      StepSpec(s).0.halted == (d.opcodeName == "HALT") && StepSpec(s).1 == !StepSpec(s).0.halted
  {
  }

  /**
   * With the control unit in FETCH a step moves no data: registers, memory
   * and flags stay, the IR takes the fetched word, and the PC gains one
   * unless the word is a jump or HALT (a jump does not jump).
   */
  lemma StepNeverExecutes(s: CpuState)
    requires WellFormedState(s.dp) && !s.halted && s.control == Fetch
    ensures var instruction := FetchWord(s.dp.pc, s.dp.mem);
      var d := RefDecoder.Decode(instruction);
      var r := StepSpec(s).0;
      && r.dp.regs == s.dp.regs && r.dp.mem == s.dp.mem && r.dp.flags == s.dp.flags
      && r.dp.ir == instruction && r.current == Some(d)
      && r.dp.pc == (if d.opcodeName in NoIncrement then s.dp.pc else Increment(s.dp.pc))
  {
    var instruction := FetchWord(s.dp.pc, s.dp.mem);
    var d := RefDecoder.Decode(instruction);
    RefDecodedWellFormed(instruction);
    FetchSignalsChangeNothing(s.dp.(ir := instruction), d, d.opcodeName, s.dp.flags.z);
  }

  /**
   * After a non-jump at an even PC the PC is odd, and the next fetch reads
   * the second byte of the same word followed by its first byte: the word
   * at PC + 2 is not the one fetched next.
   */
  lemma NextFetchRereadsWord(s: CpuState)
    requires WellFormedState(s.dp) && !s.halted && s.control == Fetch
    requires |s.dp.pc| == 8 && IsBits(s.dp.pc) && Val(s.dp.pc) % 2 == 0
    requires RefDecoder.Decode(FetchWord(s.dp.pc, s.dp.mem)).opcodeName !in NoIncrement
    ensures var r := StepSpec(s).0;
      && Val(r.dp.pc) == Val(s.dp.pc) + 1
      && FetchWord(r.dp.pc, r.dp.mem) == MemRead(s.dp.mem, Val(s.dp.pc) + 1) + MemRead(s.dp.mem, Val(s.dp.pc))
  {
    StepNeverExecutes(s);
    var p := s.dp.pc;
    var r := StepSpec(s).0;
    IncrementValue(p);
    ValRange(p);
    Pow2Values();
    var v := Val(p);
    DivModUnique(v, 2, v / 2, 0);
    assert v + 1 < 256;
    DivModUnique(v + 1, 256, 0, v + 1);
    DivModUnique(v + 1, 2, v / 2, 1);
    FetchFlipsBit0(r.dp.pc);
  }

  /** One turn of run's loop: with `left` cycles to go, the outcome of run is that of the state after one more step. */
  lemma RunLoopStep(total: (CpuState, int), before: CpuState, left: int, cycles: int, after: CpuState, running: bool)
    returns (left': int)
    requires WellFormedState(before.dp) && left > 0
    requires (after, running) == StepSpec(before)
    requires total.0 == RunSpec(before, left).0 && total.1 == cycles + RunSpec(before, left).1
    ensures WellFormedState(after.dp) && left' == left - 1
    ensures !running ==> total == (after, cycles)
    ensures running ==> total.0 == RunSpec(after, left').0 && total.1 == cycles + 1 + RunSpec(after, left').1
  {
    left' := left - 1;
  }

  /** run counts at most max_cycles steps, and it stops early only on a halted CPU. */
  lemma {:induction false} RunBound(s: CpuState, maxCycles: int)
    requires WellFormedState(s.dp)
    ensures 0 <= RunSpec(s, maxCycles).1
    ensures maxCycles >= 0 ==> RunSpec(s, maxCycles).1 <= maxCycles
    ensures RunSpec(s, maxCycles).1 < maxCycles ==> RunSpec(s, maxCycles).0.halted
    decreases maxCycles
  {
    if maxCycles > 0 {
      var next := StepSpec(s);
      var m := RunLoopStep(RunSpec(s, maxCycles), s, maxCycles, 0, next.0, next.1);
      if next.1 {
        RunBound(next.0, m);
      }
    }
  }

  /** A run from FETCH leaves every register, memory cell and flag as it found them. */
  lemma {:induction false} RunMovesNoData(s: CpuState, maxCycles: int)
    requires WellFormedState(s.dp) && s.control == Fetch
    ensures var r := RunSpec(s, maxCycles).0;
      r.dp.regs == s.dp.regs && r.dp.mem == s.dp.mem && r.dp.flags == s.dp.flags && r.control == Fetch
    decreases maxCycles
  {
    if maxCycles > 0 {
      var next := StepSpec(s);
      var m := RunLoopStep(RunSpec(s, maxCycles), s, maxCycles, 0, next.0, next.1);
      if !s.halted {
        StepNeverExecutes(s);
      }
      if next.1 {
        RunMovesNoData(next.0, m);
      }
    }
  }

  // ---------------------------------------------------------------------
  // The step the instruction set describes
  // ---------------------------------------------------------------------

  /** The word at a PC value p: the bytes at p and p + 1 (mod 256). */
  function IntendedFetch(mem: seq<seq<int>>, p: int): seq<int>
  {
    MemRead(mem, p) + MemRead(mem, (p + 1) % 256)
  }

  /**
   * Executing a fetched word w, decoded to d by the format-aware decoder, as
   * the ISA describes it: move data under the EXECUTE signals, then set the
   * PC to the jump target or to the next word (PC + 2).
   */
  function IntendedExecute(dp: DpState, w: seq<int>, d: Decoder.Decoded): (r: DpState)
    requires WellFormedState(dp) && WellFormedDecoded(d)
    ensures WellFormedState(r)
  {
    var sig := SignalsFor(Execute, d.opcodeName, dp.flags.z);
    var moved := ExecData(dp, sig, d);
    var target := if sig.pcLoad != 0 then d.rs2Imm else Val(dp.pc) + 2;
    moved.(ir := w, pc := IntToBits(target, 8))
  }

  /** One instruction as the ISA describes it: fetch both bytes of the word at the PC; HALT stops, anything else executes. */
  function IntendedStep(s: CpuState): (r: (CpuState, bool))
    requires WellFormedState(s.dp)
    ensures WellFormedState(r.0.dp)
  {
    if s.halted then (s, false)
    else
      var w := IntendedFetch(s.dp.mem, Val(s.dp.pc));
      var d := Decoder.Decode(w);
      SrcDecodedWellFormed(w);
      if d.opcodeName == "HALT" then (s.(dp := s.dp.(ir := w), current := Some(d), halted := true), false)
      else (s.(dp := IntendedExecute(s.dp, w, d), current := Some(d)), true)
  }

  /** Memory holds the 16-bit word w at cell p (low byte) and p + 1 (high byte). */
  predicate HoldsWord(mem: seq<seq<int>>, p: int, w: seq<int>)
    requires |w| == 16
  {
    0 <= p && p + 1 < |mem| && mem[p] == w[..8] && mem[p + 1] == w[8..]
  }

  /** Where a word is stored, the intended fetch reads it back. */
  lemma IntendedFetchReadsWord(mem: seq<seq<int>>, p: int, w: seq<int>)
    requires |w| == 16 && |mem| == 256 && HoldsWord(mem, p, w)
    ensures IntendedFetch(mem, p) == w
  {
    DivModUnique(p + 1, 256, 0, p + 1);
  }

  /** The format-aware decoder's output is well formed for the data path. */
  lemma SrcDecodedWellFormed(instruction: seq<int>)
    ensures WellFormedDecoded(Decoder.Decode(instruction))
  {
    var d := Decoder.Decode(instruction);
    DigitsValue(d.rd, 3);
    DigitsValue(d.rs1, 3);
    DigitsValue(d.rs2Imm, 8);
  }

  /** bits[:3] of a bit list holds its value modulo 8. */
  lemma Take3Low(bits: seq<int>)
    requires IsBits(bits) && |bits| >= 3
    ensures Val(Take3(bits)) == Val(bits) % 8
  {
    assert Take3(bits) == bits[..3];
    Isa.SplitWord(bits, 3);
    assert Pow2(3) == 8;
    DivModUnique(Val(bits), 8, Val(bits[3..]), Val(bits[..3]));
  }

  /** ExecCycle differs from ExecData only in the PC. */
  lemma ExecCycleMovesPcOnly(s: DpState, sig: Clock.Signals, d: Decoder.Decoded)
    requires WellFormedState(s) && WellFormedDecoded(d)
    requires UsesAlu(sig, d) ==> |sig.aluOp| >= 4
    ensures ExecCycle(s, sig, d) == ExecData(s, sig, d).(pc := ExecCycle(s, sig, d).pc)
  {
  }

  /** An encoded ADD of registers below 8 decodes to ADD with those register numbers. */
  lemma AddDecodes(rd: int, rs1: int, rs2: int)
    requires 0 <= rd < 8 && 0 <= rs1 < 8 && 0 <= rs2 < 8
    ensures var w := Isa.Encode("ADD", rd, rs1, rs2);
      && |w| == 16 && IsBits(w)
    ensures var d := Decoder.Decode(Isa.Encode("ADD", rd, rs1, rs2));
      && d.opcodeName == "ADD" && d.rd == rd && d.rs1 == rs1 && d.rs2Imm == rs2
  {
    var w := Isa.Encode("ADD", rd, rs1, rs2);
    assert Isa.Upper("ADD") == "ADD";
    Isa.EncodeDecode("ADD", rd, rs1, rs2);
    Decoder.DecodeAgreesWithIsa(w);
    Pow2Values();
    DivModUnique(rd, 16, 0, rd);
    DivModUnique(rs1, 16, 0, rs1);
    DivModUnique(rs2, 16, 0, rs2);
  }

  /** Executing an ADD under the EXECUTE signals writes the 8-bit sum of rs1 and rs2 into rd. */
  lemma AddWritesSum(dp: DpState, d: Decoder.Decoded, z: int, rd: int, rs1: int, rs2: int)
    requires WellFormedState(dp) && WellFormedDecoded(d) && d.opcodeName == "ADD"
    requires Val(Take3(d.rdBits)) == rd && Val(Take3(d.rs1Bits)) == rs1 && Val(Take3(d.rs2Bits)) == rs2
    requires IsBits(FileRead(dp.regs, rs1)) && IsBits(FileRead(dp.regs, rs2))
    ensures var r := ExecData(dp, SignalsFor(Execute, "ADD", z), d);
      FileRead(r.regs, rd) == IntToBits(Val(FileRead(dp.regs, rs1)) + Val(FileRead(dp.regs, rs2)), 8)
  {
    var sig := SignalsFor(Execute, "ADD", z);
    var a := FileRead(dp.regs, rs1);
    var b := FileRead(dp.regs, rs2);
    AluOpMatchesAlu("ADD", z);
    assert sig.aluOp == Alu.OpAdd;
    RefAlu.RefAddSpec(a, b);
    var out := RefAlu.Execute(a, b, Alu.OpAdd);
    Take3Range(d.rdBits);
    WriteThenRead(dp.regs, rd, out.result);
    assert out.result[..8] == out.result;
    assert ExecData(dp, sig, d).regs == FileWrite(dp.regs, rd, out.result, 1);
    Pow2Values();
    ValInjective(out.result, IntToBits(Val(a) + Val(b), 8));
  }

  /** Executing an ADD whose fields name rd, rs1 and rs2. */
  lemma IntendedExecuteAdd(dp: DpState, w: seq<int>, d: Decoder.Decoded, rd: int, rs1: int, rs2: int)
    requires WellFormedState(dp) && WellFormedDecoded(d) && d.opcodeName == "ADD"
    requires Val(Take3(d.rdBits)) == rd && Val(Take3(d.rs1Bits)) == rs1 && Val(Take3(d.rs2Bits)) == rs2
    requires IsBits(FileRead(dp.regs, rs1)) && IsBits(FileRead(dp.regs, rs2))
    ensures var r := IntendedExecute(dp, w, d);
      && FileRead(r.regs, rd) == IntToBits(Val(FileRead(dp.regs, rs1)) + Val(FileRead(dp.regs, rs2)), 8)
      && r.pc == IntToBits(Val(dp.pc) + 2, 8)
  {
    var z := dp.flags.z;
    AluOpMatchesAlu("ADD", z);
    AddWritesSum(dp, d, z, rd, rs1, rs2);
  }

  /** A word other than HALT stored at the PC is fetched, decoded and executed. */
  lemma IntendedStepExecutes(s: CpuState, w: seq<int>)
    requires WellFormedState(s.dp) && !s.halted && |w| == 16
    requires HoldsWord(s.dp.mem, Val(s.dp.pc), w) && Decoder.Decode(w).opcodeName != "HALT"
    ensures WellFormedDecoded(Decoder.Decode(w))
    ensures IntendedStep(s) == (s.(dp := IntendedExecute(s.dp, w, Decoder.Decode(w)), current := Some(Decoder.Decode(w))), true)
  {
    IntendedFetchReadsWord(s.dp.mem, Val(s.dp.pc), w);
    SrcDecodedWellFormed(w);
  }

  /** A word whose register fields are below 8 names those registers in the bits the data path reads. */
  lemma DecodedRegisters(w: seq<int>, rd: int, rs1: int, rs2: int)
    requires |w| == 16 && IsBits(w)
    requires var d := Decoder.Decode(w); d.rd == rd && d.rs1 == rs1 && d.rs2Imm == rs2
    requires 0 <= rd < 8 && 0 <= rs1 < 8 && 0 <= rs2 < 8
    ensures var d := Decoder.Decode(w);
      WellFormedDecoded(d) && Val(Take3(d.rdBits)) == rd && Val(Take3(d.rs1Bits)) == rs1 && Val(Take3(d.rs2Bits)) == rs2
  {
    var d := Decoder.Decode(w);
    Decoder.DecodeFields(w);
    DivModUnique(rd, 8, 0, rd);
    DivModUnique(rs1, 8, 0, rs1);
    Take3Low(d.rs2Bits);
    DivModUnique(rs2, 8, 0, rs2);
  }

  /** The data movement and PC update of an ADD word whose register fields name rd, rs1 and rs2. */
  lemma IntendedAddExecute(dp: DpState, w: seq<int>, rd: int, rs1: int, rs2: int)
    requires WellFormedState(dp) && |w| == 16 && IsBits(w)
    requires var d := Decoder.Decode(w); d.opcodeName == "ADD" && d.rd == rd && d.rs1 == rs1 && d.rs2Imm == rs2
    requires 0 <= rd < 8 && 0 <= rs1 < 8 && 0 <= rs2 < 8
    requires IsBits(FileRead(dp.regs, rs1)) && IsBits(FileRead(dp.regs, rs2))
    ensures WellFormedDecoded(Decoder.Decode(w))
    ensures var r := IntendedExecute(dp, w, Decoder.Decode(w));
      && FileRead(r.regs, rd) == IntToBits(Val(FileRead(dp.regs, rs1)) + Val(FileRead(dp.regs, rs2)), 8)
      && r.pc == IntToBits(Val(dp.pc) + 2, 8)
  {
    DecodedRegisters(w, rd, rs1, rs2);
    IntendedExecuteAdd(dp, w, Decoder.Decode(w), rd, rs1, rs2);
  }

  /**
   * The encoding of ADD rd, rs1, rs2 (registers below 8), executed as the
   * ISA describes: rd receives the 8-bit encoding of R[rs1] + R[rs2] (the
   * sum mod 256) and the PC moves to the next word, p + 2 (mod 256).
   */
  lemma IntendedAddEncoded(dp: DpState, rd: int, rs1: int, rs2: int)
    requires WellFormedState(dp)
    requires 0 <= rd < 8 && 0 <= rs1 < 8 && 0 <= rs2 < 8
    requires IsBits(FileRead(dp.regs, rs1)) && IsBits(FileRead(dp.regs, rs2))
    ensures var w := Isa.Encode("ADD", rd, rs1, rs2);
      && Decoder.Decode(w).opcodeName == "ADD" && WellFormedDecoded(Decoder.Decode(w))
      && var r := IntendedExecute(dp, w, Decoder.Decode(w));
      && FileRead(r.regs, rd) == IntToBits(Val(FileRead(dp.regs, rs1)) + Val(FileRead(dp.regs, rs2)), 8)
      && r.pc == IntToBits(Val(dp.pc) + 2, 8)
  {
    AddDecodes(rd, rs1, rs2);
    IntendedAddExecute(dp, Isa.Encode("ADD", rd, rs1, rs2), rd, rs1, rs2);
  }

  /** JMP a at PC p: the PC becomes a (mod 256), addresses of 16 and above included. */
  lemma IntendedJump(s: CpuState, address: int)
    requires WellFormedState(s.dp) && !s.halted
    requires HoldsWord(s.dp.mem, Val(s.dp.pc), Isa.Encode("JMP", 0, 0, address))
    ensures var r := IntendedStep(s);
      r.1 && Val(r.0.dp.pc) == address % 256 && r.0.dp.regs == s.dp.regs && r.0.dp.mem == s.dp.mem
  {
    var w := Isa.Encode("JMP", 0, 0, address);
    IntendedFetchReadsWord(s.dp.mem, Val(s.dp.pc), w);
    assert Isa.Upper("JMP") == "JMP";
    Decoder.AddressRoundTrip("JMP", 0, 0, address);
    MemoryAndMoveSignals(s.dp.flags.z);
    Pow2Values();
    var a := address % 256;
    DivModUnique(a, 256, 0, a);
  }

  /** Once the budget is spent, the outcome of run is the current state and count. */
  lemma RunLoopDone(total: (CpuState, int), s: CpuState, left: int, cycles: int)
    requires WellFormedState(s.dp) && left <= 0
    requires total.0 == RunSpec(s, left).0 && total.1 == cycles + RunSpec(s, left).1
    ensures total == (s, cycles)
  {
  }

  class CPU {
    const datapath: DataPath
    const control: ControlUnit
    const clock: Clock.Clock
    var halted: bool
    var currentInstruction: Option<Decoder.Decoded>

    function Snapshot(): CpuState
      reads this, datapath, datapath.pc, datapath.memory, datapath.regFile, datapath.regFile.registers, control, clock
    {
      CpuState(datapath.State(), control.state, halted, currentInstruction, clock.state, clock.cycle)
    }

    predicate Valid()
      reads this, datapath, datapath.pc, datapath.memory, datapath.regFile, datapath.regFile.registers
    {
      datapath.Valid()
    }

    /** A fresh CPU: a fresh data path, the control unit in FETCH, not halted, no current instruction, clock at 0. */
    constructor ()
      ensures Valid() && fresh(datapath) && fresh(control) && fresh(clock)
      ensures fresh(datapath.pc) && fresh(datapath.memory) && fresh(datapath.regFile) && fresh(datapath.regFile.registers)
      ensures Snapshot() == CpuState(
        DpState(Zeros(8), FreshMemory(256), seq(8, i => FreshRegister()), Zeros(16), Flags(0, 0, 0, 0)),
        Fetch, false, None, 0, 0)
    {
      datapath := new DataPath();
      control := new ControlUnit();
      clock := new Clock.Clock();
      halted := false;
      currentInstruction := None;
    }

    /** reset(): PC to 0, control to FETCH, not halted, no current instruction; registers, memory, flags and clock stay. */
    method Reset()
      requires Valid()
      modifies this, datapath.pc, control, control.signals
      ensures Valid()
      ensures Snapshot() == old(Snapshot()).(dp := old(Snapshot()).dp.(pc := Zeros(8)), control := Fetch, halted := false, current := None)
    {
      var _ := datapath.pc.Clock(0, Zeros(8), 0, 1, 1);
      control.Reset();
      halted := false;
      currentInstruction := None;
    }

    /** fetch(). */
    method FetchWordAtPc() returns (instruction: seq<int>)
      requires Valid()
      ensures instruction == FetchWord(datapath.pc.value, datapath.memory.memory)
    {
      instruction := datapath.FetchInstruction();
    }

    /** execute(decoded). */
    method Execute(decoded: Decoder.Decoded)
      requires Valid() && WellFormedDecoded(decoded)
      modifies this, datapath, datapath.pc, datapath.memory, datapath.regFile.registers, control.signals
      ensures Valid()
      ensures Snapshot() == ExecuteSpec(old(Snapshot()), decoded)
    {
      if decoded.opcodeName == "HALT" {
        halted := true;
        return;
      }
      var signals := control.GenerateSignals(decoded, datapath.flags);
      datapath.ExecuteCycle(signals, decoded);
    }

    /** fetch(), load_instruction and decode: the first half of step(). */
    method FetchAndDecode() returns (decoded: Decoder.Decoded)
      requires Valid()
      modifies this, datapath
      ensures Valid()
      ensures Snapshot() == FetchStage(old(Snapshot())) && Snapshot().current == Some(decoded)
    {
      var instruction := FetchWordAtPc();
      datapath.LoadInstruction(instruction);
      decoded := RefDecoder.Decode(instruction);
      currentInstruction := Some(decoded);
    }

    /** The PC increment at the end of step(). */
    method AdvancePc(opname: string)
      requires Valid()
      modifies datapath.pc
      ensures Valid()
      ensures Snapshot() == AdvanceStage(old(Snapshot()), opname)
    {
      if opname !in NoIncrement {
        var _ := datapath.pc.Clock(0, Zeros(8), 1, 0, 1);
      }
    }

    /** clock.tick() at the end of step(). */
    method TickClock()
      requires Valid()
      modifies clock
      ensures Valid()
      ensures Snapshot() == TickStage(old(Snapshot()))
    {
      var _ := clock.Tick();
    }

    /** step(). */
    method Step() returns (running: bool)
      requires Valid()
      modifies this, datapath, datapath.pc, datapath.memory, datapath.regFile.registers, control.signals, clock
      ensures Valid()
      ensures (Snapshot(), running) == StepSpec(old(Snapshot()))
    {
      if halted {
        running := false;
        return;
      }
      var decoded := FetchAndDecode();
      Execute(decoded);
      AdvancePc(decoded.opcodeName);
      TickClock();
      running := !halted;
    }

    /** run(max_cycles): step while the budget lasts and step returns True; return the count. */
    method Run(maxCycles: int) returns (cycles: int)
      requires Valid()
      modifies this, datapath, datapath.pc, datapath.memory, datapath.regFile.registers, control.signals, clock
      ensures Valid()
      ensures (Snapshot(), cycles) == RunSpec(old(Snapshot()), maxCycles)
    {
      ghost var total := RunSpec(Snapshot(), maxCycles);
      ghost var left := maxCycles;
      cycles := 0;
      while cycles < maxCycles
        invariant Valid() && 0 <= cycles && left == maxCycles - cycles
        invariant total.0 == RunSpec(Snapshot(), left).0 && total.1 == cycles + RunSpec(Snapshot(), left).1
        decreases maxCycles - cycles
      {
        ghost var before := Snapshot();
        var running := Step();
        left := RunLoopStep(total, before, left, cycles, Snapshot(), running);
        if !running {
          return;
        }
        cycles := cycles + 1;
      }
      RunLoopDone(total, Snapshot(), left, cycles);
    }
  }
}
