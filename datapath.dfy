/**
 * The data path (solutions/datapath.py): a program counter, a 256-byte RAM,
 * eight registers, the instruction register and the flags. execute_cycle
 * carries out one instruction's data movement under a set of control
 * signals; fetch_instruction reads the two bytes of an instruction word.
 *
 * `ExecCycle` and `Fetch` state both on a value snapshot of the data path;
 * the class's methods are proved to change the objects exactly as they say.
 */
module DataPath {
  import opened Bits
  import opened Sequential
  import opened Registers
  import opened Memory
  import opened Counters
  import opened Alu
  import RefAlu
  import opened Clock
  import opened Control
  import Decoder

  /** A snapshot of the data path: PC, memory cells, register states, IR and flags. */
  datatype DpState = DpState(pc: seq<int>, mem: seq<seq<int>>, regs: seq<seq<FlipFlop>>, ir: seq<int>, flags: Flags)

  /** The shapes the data path keeps: a PC of at least eight bits, 256 byte cells, eight registers. */
  predicate WellFormedState(s: DpState)
  {
    && |s.pc| >= 8
    && |s.mem| == 256 && (forall i :: 0 <= i < |s.mem| ==> |s.mem[i]| == 8)
    && |s.regs| == 8 && WellFormed(s.regs)
  }

  /** A decoded instruction as both decoders produce it: bit lists of bits, an operand of four or more. */
  predicate WellFormedDecoded(d: Decoder.Decoded)
  {
    IsBits(d.rdBits) && IsBits(d.rs1Bits) && IsBits(d.rs2Bits) && |d.rs2Bits| >= 4
  }

  /** bits[:3]. */
  function Take3(bits: seq<int>): (r: seq<int>)
    ensures |r| <= 3 && |r| <= |bits| && r == bits[..|r|]
  {
    if |bits| <= 3 then bits else bits[..3]
  }

  /** addr = [0] * 8; addr[:4] = bits: the operand bits followed by four zeros. */
  function WideAddress(bits: seq<int>): seq<int>
  {
    bits + [0, 0, 0, 0]
  }

  /** The ALU branch of execute_cycle is taken. */
  predicate UsesAlu(sig: Signals, d: Decoder.Decoded)
  {
    && !(sig.memRead != 0 && sig.memToReg != 0) && sig.memWrite == 0
    && sig.regWrite != 0 && sig.memToReg == 0 && d.opcodeName != "MOV"
  }

  /** A three-bit register address is below eight. */
  lemma Take3Range(bits: seq<int>)
    requires IsBits(bits)
    ensures IsBits(Take3(bits)) && 0 <= Val(Take3(bits)) < 8
  {
    ValRange(Take3(bits));
    Pow2Mono(|Take3(bits)|, 3);
    Pow2Values();
  }

  /** The wide address has the value of the operand bits. */
  lemma WideAddressValue(bits: seq<int>)
    ensures Val(WideAddress(bits)) == Val(bits) && |WideAddress(bits)| == |bits| + 4
  {
    ValAppend(bits, [0, 0, 0, 0]);
    assert [0, 0, 0, 0] == Zeros(4);
    ValZeros(4);
  }

  /** The register and memory part of execute_cycle (the first if/elif chain). */
  function ExecData(s: DpState, sig: Signals, d: Decoder.Decoded): (r: DpState)
    requires WellFormedState(s) && WellFormedDecoded(d)
    requires UsesAlu(sig, d) ==> |sig.aluOp| >= 4
    ensures WellFormedState(r) && r.pc == s.pc && r.ir == s.ir
  {
    var rd := Take3(d.rdBits);
    var aVal := FileRead(s.regs, Val(Take3(d.rs1Bits)));
    var bVal := FileRead(s.regs, Val(Take3(d.rs2Bits)));
    var addr := WideAddress(d.rs2Bits);
    Take3Range(d.rdBits);
    if sig.memRead != 0 && sig.memToReg != 0 then
      s.(regs := FileWrite(s.regs, Val(rd), MemRead(s.mem, Val(addr)), 1))
    else if sig.memWrite != 0 then
      s.(mem := MemWrite(s.mem, Val(addr), FileRead(s.regs, Val(rd)), 1))
    else if sig.regWrite != 0 && sig.memToReg == 0 then
      if d.opcodeName == "MOV" then
        s.(regs := FileWrite(s.regs, Val(rd), aVal, 1))
      else
        var out := RefAlu.Execute(aVal, bVal, sig.aluOp);
        RefAlu.ResultLength(aVal, bVal, sig.aluOp);
        s.(regs := FileWrite(s.regs, Val(rd), out.result, 1), flags := out.flags)
    else
      s
  }

  /** execute_cycle(signals, decoded): the data movement, then the PC update. */
  function ExecCycle(s: DpState, sig: Signals, d: Decoder.Decoded): (r: DpState)
    requires WellFormedState(s) && WellFormedDecoded(d)
    requires UsesAlu(sig, d) ==> |sig.aluOp| >= 4
    ensures WellFormedState(r) && r.ir == s.ir
  {
    var s1 := ExecData(s, sig, d);
    WideAddressValue(d.rs2Bits);
    if sig.pcLoad != 0 then s1.(pc := PcNext(s1.pc, 1, WideAddress(d.rs2Bits), 0, 0))
    else if sig.pcInc != 0 then s1.(pc := PcNext(s1.pc, 0, Zeros(8), 1, 0))
    else s1
  }

  /** pc_plus: the PC with bit 0 flipped. */
  function FlipBit0(pc: seq<int>): (r: seq<int>)
    requires |pc| >= 8
    ensures |r| == 8
  {
    seq(8, i requires 0 <= i < 8 => if i > 0 then pc[i] else 1 - pc[0])
  }

  /** fetch_instruction: the byte at PC, then the byte at PC with bit 0 flipped. */
  function FetchWord(pc: seq<int>, mem: seq<seq<int>>): seq<int>
    requires |pc| >= 8
  {
    MemRead(mem, Val(pc)) + MemRead(mem, Val(FlipBit0(pc)))
  }

  // ---------------------------------------------------------------------
  // Properties of one execute_cycle
  // ---------------------------------------------------------------------

  /** With the FETCH signals (the only ones the CPU ever produces) execute_cycle changes nothing. */
  lemma FetchSignalsChangeNothing(s: DpState, d: Decoder.Decoded, opname: string, z: int)
    requires WellFormedState(s) && WellFormedDecoded(d)
    ensures ExecCycle(s, SignalsFor(Fetch, opname, z), d) == s
  {
  }

  /** LOAD: rd receives the memory byte at the operand address; memory, flags, PC and other registers stay. */
  lemma LoadMovesByte(s: DpState, d: Decoder.Decoded, z: int, j: int)
    requires WellFormedState(s) && WellFormedDecoded(d)
    requires 0 <= j < 8 && j != Val(Take3(d.rdBits))
    ensures var r := ExecCycle(s, SignalsFor(Execute, "LOAD", z), d);
      && FileRead(r.regs, Val(Take3(d.rdBits))) == MemRead(s.mem, Val(d.rs2Bits))
      && r.regs[j] == s.regs[j] && r.mem == s.mem && r.flags == s.flags && r.pc == s.pc
  {
    MemoryAndMoveSignals(z);
    Take3Range(d.rdBits);
    WideAddressValue(d.rs2Bits);
    var data := MemRead(s.mem, Val(d.rs2Bits));
    WriteThenRead(s.regs, Val(Take3(d.rdBits)), data);
    assert data[..8] == data;
  }

  /** STORE: the memory cell at the operand address receives rd; registers, flags and PC stay. */
  lemma StoreMovesByte(s: DpState, d: Decoder.Decoded, z: int)
    requires WellFormedState(s) && WellFormedDecoded(d)
    ensures var r := ExecCycle(s, SignalsFor(Execute, "STORE", z), d);
      && r.mem == MemWrite(s.mem, Val(d.rs2Bits), FileRead(s.regs, Val(Take3(d.rdBits))), 1)
      && r.regs == s.regs && r.flags == s.flags && r.pc == s.pc
  {
    MemoryAndMoveSignals(z);
    WideAddressValue(d.rs2Bits);
  }

  /** MOV: rd receives the value rs1 had before the write (rd may be rs1); the flags stay. */
  lemma MovCopies(s: DpState, d: Decoder.Decoded, z: int)
    requires WellFormedState(s) && WellFormedDecoded(d) && d.opcodeName == "MOV"
    ensures var r := ExecCycle(s, SignalsFor(Execute, "MOV", z), d);
      && FileRead(r.regs, Val(Take3(d.rdBits))) == FileRead(s.regs, Val(Take3(d.rs1Bits)))
      && r.mem == s.mem && r.flags == s.flags && r.pc == s.pc
  {
    MemoryAndMoveSignals(z);
    Take3Range(d.rdBits);
    var a := FileRead(s.regs, Val(Take3(d.rs1Bits)));
    WriteThenRead(s.regs, Val(Take3(d.rdBits)), a);
    assert a[..8] == a;
  }

  /** An ALU mnemonic: rd receives the ALU result on rs1 and rs2 (both read first), and the flags are the ALU's. */
  lemma AluWritesResult(s: DpState, d: Decoder.Decoded, z: int)
    requires WellFormedState(s) && WellFormedDecoded(d) && d.opcodeName in AluNames
    ensures var r := ExecCycle(s, SignalsFor(Execute, d.opcodeName, z), d);
      var a := FileRead(s.regs, Val(Take3(d.rs1Bits)));
      var b := FileRead(s.regs, Val(Take3(d.rs2Bits)));
      var out := RefAlu.Execute(a, b, Digits(AluCode(d.opcodeName), 4));
      && FileRead(r.regs, Val(Take3(d.rdBits))) == out.result
      && r.flags == out.flags && r.mem == s.mem && r.pc == s.pc
  {
    hide ExecCycle;
    hide SignalsFor;
    hide RefAlu.Execute;
    var sig := SignalsFor(Execute, d.opcodeName, z);
    AluSignals(d.opcodeName, z);
    AluCycle(s, sig, d);
    Take3Range(d.rdBits);
    var a := FileRead(s.regs, Val(Take3(d.rs1Bits)));
    var b := FileRead(s.regs, Val(Take3(d.rs2Bits)));
    var out := RefAlu.Execute(a, b, sig.aluOp);
    RefAlu.ResultLength(a, b, sig.aluOp);
    WriteThenRead(s.regs, Val(Take3(d.rdBits)), out.result);
    assert out.result[..8] == out.result;
  }

  /** The EXECUTE signals of an ALU mnemonic: its operation code and a register write, nothing else. */
  lemma AluSignals(opname: string, z: int)
    requires opname in AluNames
    ensures SignalsFor(Execute, opname, z) == Default().(aluOp := Digits(AluCode(opname), 4), regWrite := 1)
    ensures opname != "MOV"
  {
  }

  /** Under a register write with no memory access and no PC signal, a non-MOV cycle stores the ALU result and its flags. */
  lemma AluCycle(s: DpState, sig: Signals, d: Decoder.Decoded)
    requires WellFormedState(s) && WellFormedDecoded(d) && |sig.aluOp| >= 4 && d.opcodeName != "MOV"
    requires sig.regWrite == 1 && sig.memToReg == 0 && sig.memRead == 0 && sig.memWrite == 0
    requires sig.pcLoad == 0 && sig.pcInc == 0
    ensures var out := RefAlu.Execute(FileRead(s.regs, Val(Take3(d.rs1Bits))), FileRead(s.regs, Val(Take3(d.rs2Bits))), sig.aluOp);
      ExecCycle(s, sig, d) == s.(regs := FileWrite(s.regs, Val(Take3(d.rdBits)), out.result, 1), flags := out.flags)
  {
  }

  /** A taken jump loads the operand as the new PC; an untaken one adds one; neither touches data. */
  lemma JumpsSetPc(s: DpState, d: Decoder.Decoded, z: int)
    requires WellFormedState(s) && WellFormedDecoded(d)
    ensures var r := ExecCycle(s, SignalsFor(Execute, "JMP", z), d);
      r == s.(pc := WideAddress(d.rs2Bits)) && Val(r.pc) == Val(d.rs2Bits)
    ensures var r := ExecCycle(s, SignalsFor(Execute, "JZ", z), d);
      r == s.(pc := if z == 1 then WideAddress(d.rs2Bits) else Increment(s.pc))
    ensures var r := ExecCycle(s, SignalsFor(Execute, "JNZ", z), d);
      r == s.(pc := if z == 0 then WideAddress(d.rs2Bits) else Increment(s.pc))
  {
    MemoryAndMoveSignals(z);
    ConditionalJumps(z);
    WideAddressValue(d.rs2Bits);
    assert "JZ" !in AluNames && "JNZ" !in AluNames;
  }

  /** fetch_instruction reads PC and PC + 1 only when PC is even; at an odd PC the second byte is PC - 1. */
  lemma FetchFlipsBit0(pc: seq<int>)
    requires |pc| == 8 && IsBits(pc)
    ensures Val(FlipBit0(pc)) == if Val(pc) % 2 == 0 then Val(pc) + 1 else Val(pc) - 1
  {
    var f := FlipBit0(pc);
    ValHead(pc);
    ValHead(f);
    assert f[1..] == pc[1..];
    DivModUnique(Val(pc), 2, Val(pc[1..]), pc[0]);
  }

  class DataPath {
    const pc: ProgramCounter
    const memory: RAM
    const regFile: RegisterFile
    var ir: seq<int>
    var flags: Flags

    /** The snapshot of every part of the data path. */
    function State(): DpState
      reads this, pc, memory, regFile, regFile.registers
    {
      DpState(pc.value, memory.memory, regFile.Regs(), ir, flags)
    }

    predicate Valid()
      reads this, pc, memory, regFile, regFile.registers
    {
      memory.Valid() && regFile.Valid() && WellFormedState(State())
    }

    /** A fresh data path: PC 0, zeroed RAM and registers, IR of sixteen zeros, all flags 0. */
    constructor ()
      ensures Valid() && fresh(pc) && fresh(memory) && fresh(regFile) && fresh(regFile.registers)
      ensures State() == DpState(Zeros(8), FreshMemory(256), seq(8, i => FreshRegister()), Zeros(16), Flags(0, 0, 0, 0))
    {
      pc := new ProgramCounter();
      memory := new RAM(256);
      regFile := new RegisterFile(8);
      ir := Zeros(16);
      flags := Flags(0, 0, 0, 0);
    }

    /** execute_cycle(signals, decoded). */
    method ExecuteCycle(signals: ControlSignals, decoded: Decoder.Decoded)
      requires Valid() && WellFormedDecoded(decoded)
      requires UsesAlu(signals.Value(), decoded) ==> |signals.aluOp| >= 4
      modifies this, pc, memory, regFile.registers
      ensures Valid()
      ensures State() == ExecCycle(old(State()), old(signals.Value()), decoded)
    {
      var sig := signals.Value();
      MoveData(sig, decoded);
      WideAddressValue(decoded.rs2Bits);
      if sig.pcLoad != 0 {
        var addr := WideAddress(decoded.rs2Bits);
        var _ := pc.Clock(1, addr, 0, 0, 1);
      } else if sig.pcInc != 0 {
        var _ := pc.Clock(0, Zeros(8), 1, 0, 1);
      }
    }

    /** The register and memory part of execute_cycle. */
    method MoveData(sig: Signals, decoded: Decoder.Decoded)
      requires Valid() && WellFormedDecoded(decoded)
      requires UsesAlu(sig, decoded) ==> |sig.aluOp| >= 4
      modifies this, memory, regFile.registers
      ensures Valid()
      ensures State() == ExecData(old(State()), sig, decoded)
    {
      hide RefAlu.Execute;
      hide FileWrite;
      hide MemWrite;
      var rd := Take3(decoded.rdBits);
      Take3Range(decoded.rdBits);
      Take3Range(decoded.rs1Bits);
      Take3Range(decoded.rs2Bits);
      WideAddressValue(decoded.rs2Bits);
      var addr := WideAddress(decoded.rs2Bits);
      if sig.memRead != 0 && sig.memToReg != 0 {
        var data := memory.Read(addr);
        WriteRegister(rd, data);
      } else if sig.memWrite != 0 {
        var data := regFile.Read(rd);
        StoreByte(addr, data);
      } else if sig.regWrite != 0 && sig.memToReg == 0 {
        var aVal := regFile.Read(Take3(decoded.rs1Bits));
        if decoded.opcodeName == "MOV" {
          WriteRegister(rd, aVal);
        } else {
          var bVal := regFile.Read(Take3(decoded.rs2Bits));
          WriteAluResult(rd, aVal, bVal, sig.aluOp);
        }
      }
    }

    /** The ALU branch of execute_cycle: compute, latch the flags, write the result to rd. */
    method WriteAluResult(rd: seq<int>, a: seq<int>, b: seq<int>, op: seq<int>)
      requires Valid() && IsBits(rd) && Val(rd) < 8 && |a| == 8 && |b| == 8 && |op| >= 4
      modifies this, regFile.registers
      ensures Valid()
      ensures State() == old(State()).(regs := FileWrite(old(State()).regs, Val(rd), RefAlu.Execute(a, b, op).result, 1),
                                       flags := RefAlu.Execute(a, b, op).flags)
    {
      var out := RefAlu.Execute(a, b, op);
      RefAlu.ResultLength(a, b, op);
      flags := out.flags;
      WriteRegister(rd, out.result);
    }

    /** reg_file.write(rd, data, 1, 1) inside execute_cycle. */
    method WriteRegister(rd: seq<int>, data: seq<int>)
      requires Valid() && IsBits(rd) && Val(rd) < 8 && |data| == 8
      modifies regFile.registers
      ensures Valid()
      ensures State() == old(State()).(regs := FileWrite(old(State()).regs, Val(rd), data, 1))
    {
      var _ := regFile.Write(rd, data, 1, 1);
    }

    /** memory.write(addr, data, 1) inside execute_cycle. */
    method StoreByte(addr: seq<int>, data: seq<int>)
      requires Valid() && |data| == 8
      modifies memory
      ensures Valid()
      ensures State() == old(State()).(mem := MemWrite(old(State()).mem, Val(addr), data, 1))
    {
      memory.Write(addr, data, 1);
    }

    /** fetch_instruction(): read-only. */
    method FetchInstruction() returns (instruction: seq<int>)
      requires Valid()
      ensures instruction == FetchWord(pc.value, memory.memory)
    {
      var pcVal := pc.Read();
      var low := memory.Read(pcVal);
      var pcPlus := seq(8, i requires 0 <= i < 8 => if i > 0 then pcVal[i] else 1 - pcVal[0]);
      var high := memory.Read(pcPlus);
      instruction := low + high;
    }

    /** load_instruction(instruction): the IR takes a copy; nothing else changes. */
    method LoadInstruction(instruction: seq<int>)
      modifies this
      ensures ir == instruction && flags == old(flags)
    {
      ir := instruction;
    }

    method GetPc() returns (value: seq<int>)
      ensures value == pc.value
    {
      value := pc.Read();
    }

    /** set_pc(value): a PC load of the value as given. */
    method SetPc(value: seq<int>)
      modifies pc
      ensures pc.value == value
    {
      var _ := pc.Clock(1, value, 0, 0, 1);
    }
  }
}
