/**
 * The whole computer (solutions/system.py): a CPU and an assembler.
 * Loading a program assembles it, stores each 16-bit word as two bytes
 * (low byte first) from address 0 up, then stores the `.byte` data in the
 * order the assembler recorded it, so data overrides code at the same
 * address. Running steps the CPU up to a cycle budget and returns a dump
 * of the CPU's state with the eight registers as unsigned numbers.
 *
 * Addresses are formed as eight bits of the number, so they wrap modulo 256.
 */
module System {
  import opened Bits
  import opened Memory
  import opened Registers
  import opened Alu
  import opened DataPath
  import opened Cpu
  import opened Control
  import Asm = Assembler
  import opened Wrappers

  // ---------------------------------------------------------------------
  // Loading, on values
  // ---------------------------------------------------------------------

  /** instruction[:8]: the low byte of a word. */
  function LowByte(w: seq<int>): seq<int>
  {
    if |w| <= 8 then w else w[..8]
  }

  /** instruction[8:] when the word is longer than a byte, eight zeros otherwise. */
  function HighByte(w: seq<int>): seq<int>
  {
    if |w| > 8 then w[8..] else Zeros(8)
  }

  /** The words load_machine_code accepts without leaving a cell that is not a byte: 8 or 16 bits. */
  predicate ByteSized(code: seq<seq<int>>)
  {
    forall i :: 0 <= i < |code| ==> |code[i]| == 8 || |code[i]| == 16
  }

  /** One word at addr: the low byte at addr mod 256, then the high byte at (addr + 1) mod 256. */
  function StoreWord(mem: seq<seq<int>>, addr: int, w: seq<int>): (r: seq<seq<int>>)
    ensures |r| == |mem|
  {
    var low := MemWrite(mem, Val(Digits(addr, 8)), LowByte(w), 1);
    MemWrite(low, Val(Digits(addr + 1, 8)), HighByte(w), 1)
  }

  /** load_machine_code(code, start): word i at start + 2i, in order. */
  function LoadCode(mem: seq<seq<int>>, code: seq<seq<int>>, start: int): (r: seq<seq<int>>)
    ensures |r| == |mem|
  {
    if code == [] then mem
    else StoreWord(LoadCode(mem, code[..|code| - 1], start), start + 2 * (|code| - 1), code[|code| - 1])
  }

  /** The data-byte loop of load_program: each (addr, value) in insertion order, both taken modulo 256. */
  function LoadData(mem: seq<seq<int>>, data: seq<(int, int)>): (r: seq<seq<int>>)
    ensures |r| == |mem|
  {
    if data == [] then mem
    else
      var (addr, value) := data[|data| - 1];
      MemWrite(LoadData(mem, data[..|data| - 1]), Val(Digits(addr, 8)), Digits(value, 8), 1)
  }

  /** The cell an address list made from addr selects. */
  lemma AddressCell(addr: int)
    ensures IsBits(Digits(addr, 8)) && Val(Digits(addr, 8)) == addr % 256
  {
    DigitsValue(addr, 8);
    Pow2Eight();
  }

  /** Storing a word keeps every cell a byte when the word has 8 or 16 bits. */
  lemma StoreWordBytes(mem: seq<seq<int>>, addr: int, w: seq<int>)
    requires |w| == 8 || |w| == 16
    requires forall i :: 0 <= i < |mem| ==> |mem[i]| == 8
    ensures forall i :: 0 <= i < |mem| ==> |StoreWord(mem, addr, w)[i]| == 8
  {
  }

  /** A word stored in range puts its low byte at addr and its high byte at addr + 1. */
  lemma StoreWordInRange(mem: seq<seq<int>>, addr: int, w: seq<int>)
    requires |mem| == 256 && 0 <= addr && addr + 1 < 256 && |w| == 16
    ensures StoreWord(mem, addr, w) == mem[addr := w[..8]][addr + 1 := w[8..]]
  {
    AddressCell(addr);
    AddressCell(addr + 1);
    DivModUnique(addr, 256, 0, addr);
    DivModUnique(addr + 1, 256, 0, addr + 1);
  }

  /**
   * Once loaded, with the code in range, every word of length 16 sits at
   * start + 2k where an instruction fetch at that address reads it back.
   */
  lemma {:induction false} LoadCodePlacesWords(mem: seq<seq<int>>, code: seq<seq<int>>, start: int)
    requires |mem| == 256 && 0 <= start && start + 2 * |code| <= 256
    requires forall k :: 0 <= k < |code| ==> |code[k]| == 16
    ensures forall k :: 0 <= k < |code| ==> HoldsWord(LoadCode(mem, code, start), start + 2 * k, code[k])
  {
    if code != [] {
      var n := |code| - 1;
      var prev := LoadCode(mem, code[..n], start);
      LoadCodePlacesWords(mem, code[..n], start);
      var p := start + 2 * n;
      StoreWordInRange(prev, p, code[n]);
      var now := LoadCode(mem, code, start);
      forall k | 0 <= k < |code|
        ensures HoldsWord(now, start + 2 * k, code[k])
      {
        if k < n {
          assert code[..n][k] == code[k];
          assert HoldsWord(prev, start + 2 * k, code[..n][k]);
        }
      }
    }
  }

  /** With the code in range, the cells outside it keep what they held. */
  lemma {:induction false} LoadCodeElsewhere(mem: seq<seq<int>>, code: seq<seq<int>>, start: int, a: int)
    requires |mem| == 256 && 0 <= start && start + 2 * |code| <= 256
    requires forall k :: 0 <= k < |code| ==> |code[k]| == 16
    requires 0 <= a < 256 && !(start <= a < start + 2 * |code|)
    ensures LoadCode(mem, code, start)[a] == mem[a]
  {
    if code != [] {
      var n := |code| - 1;
      LoadCodeElsewhere(mem, code[..n], start, a);
      StoreWordInRange(LoadCode(mem, code[..n], start), start + 2 * n, code[n]);
    }
  }

  /** Data entries are written in order: an entry no later entry shares a cell with determines that cell. */
  lemma {:induction false} LoadDataLastWins(mem: seq<seq<int>>, data: seq<(int, int)>, k: nat)
    requires |mem| == 256 && k < |data|
    requires forall j :: k < j < |data| ==> data[j].0 % 256 != data[k].0 % 256
    ensures LoadData(mem, data)[data[k].0 % 256] == Digits(data[k].1, 8)
  {
    var n := |data| - 1;
    AddressCell(data[n].0);
    if k < n {
      assert data[..n][k] == data[k];
      LoadDataLastWins(mem, data[..n], k);
    }
  }

  /** Cells that no data entry addresses keep what they held. */
  lemma {:induction false} LoadDataElsewhere(mem: seq<seq<int>>, data: seq<(int, int)>, a: int)
    requires |mem| == 256 && 0 <= a < 256
    requires forall j :: 0 <= j < |data| ==> data[j].0 % 256 != a
    ensures LoadData(mem, data)[a] == mem[a]
  {
    if data != [] {
      var n := |data| - 1;
      AddressCell(data[n].0);
      LoadDataElsewhere(mem, data[..n], a);
    }
  }

  /** Data bytes keep every cell a byte. */
  lemma {:induction false} LoadDataBytes(mem: seq<seq<int>>, data: seq<(int, int)>)
    requires forall i :: 0 <= i < |mem| ==> |mem[i]| == 8
    ensures forall i :: 0 <= i < |mem| ==> |LoadData(mem, data)[i]| == 8
  {
    if data != [] {
      LoadDataBytes(mem, data[..|data| - 1]);
    }
  }

  /** Every word the assembler produces has sixteen bits. */
  lemma AssembledWords(source: string)
    requires Asm.AssembleSpec(source).Ok?
    ensures forall k :: 0 <= k < |Asm.AssembleSpec(source).value| ==> |Asm.AssembleSpec(source).value[k]| == 16
  {
    Asm.AssembleWords(source);
  }

  /** What load_program leaves in memory: the assembled code from address 0, then the data bytes over it. */
  function ProgramImage(mem: seq<seq<int>>, source: string): seq<seq<int>>
    requires Asm.AssembleSpec(source).Ok?
  {
    var first := Asm.FirstPassSpec(map[], [], Asm.Split(source, '\n'));
    LoadData(LoadCode(mem, Asm.AssembleSpec(source).value, 0), first.value.data)
  }

  /**
   * A program with no data bytes and at most 128 instructions is in memory
   * word for word: the instruction fetch at 2k reads the k-th assembled word.
   */
  lemma ProgramFetchable(mem: seq<seq<int>>, source: string, k: nat)
    requires |mem| == 256 && Asm.AssembleSpec(source).Ok?
    requires Asm.FirstPassSpec(map[], [], Asm.Split(source, '\n')).value.data == []
    requires 2 * |Asm.AssembleSpec(source).value| <= 256 && k < |Asm.AssembleSpec(source).value|
    ensures IntendedFetch(ProgramImage(mem, source), 2 * k) == Asm.AssembleSpec(source).value[k]
  {
    var code := Asm.AssembleSpec(source).value;
    AssembledWords(source);
    LoadCodePlacesWords(mem, code, 0);
    IntendedFetchReadsWord(LoadCode(mem, code, 0), 2 * k, code[k]);
  }

  /** A data byte whose cell no later data byte shares is in memory after load_program, over any code there. */
  lemma DataOverridesCode(mem: seq<seq<int>>, source: string, k: nat)
    requires |mem| == 256 && Asm.AssembleSpec(source).Ok?
    requires var data := Asm.FirstPassSpec(map[], [], Asm.Split(source, '\n')).value.data;
      k < |data| && forall j :: k < j < |data| ==> data[j].0 % 256 != data[k].0 % 256
    ensures var data := Asm.FirstPassSpec(map[], [], Asm.Split(source, '\n')).value.data;
      ProgramImage(mem, source)[data[k].0 % 256] == Digits(data[k].1, 8)
  {
    var code := Asm.AssembleSpec(source).value;
    var data := Asm.FirstPassSpec(map[], [], Asm.Split(source, '\n')).value.data;
    LoadDataLastWins(LoadCode(mem, code, 0), data, k);
  }

  // ---------------------------------------------------------------------
  // The state dump
  // ---------------------------------------------------------------------

  /** dump_state(): get_state's pc, flags, halted and cycle, and R0..R7 as unsigned numbers. */
  datatype Dump = Dump(pc: seq<int>, flags: Flags, halted: bool, cycle: int, registers: seq<int>)

  /** The three-bit address of register i names register i. */
  lemma RegisterAddress(i: int)
    requires 0 <= i < 8
    ensures IsBits(Digits(i, 3)) && Val(Digits(i, 3)) == i
  {
    DigitsValue(i, 3);
    assert Pow2(3) == 8;
  }

  /** The dump of a CPU state. */
  function DumpOf(s: CpuState): (r: Dump)
    requires WellFormedState(s.dp)
    ensures |r.registers| == 8
  {
    Dump(s.dp.pc, s.dp.flags, s.halted, s.cycle, seq(8, i requires 0 <= i < 8 => Val(FileRead(s.dp.regs, i))))
  }

  // ---------------------------------------------------------------------
  // The Computer object
  // ---------------------------------------------------------------------

  class Computer {
    const cpu: CPU
    const assembler: Asm.Assembler

    predicate Valid()
      reads this, cpu, cpu.datapath, cpu.datapath.pc, cpu.datapath.memory, cpu.datapath.regFile, cpu.datapath.regFile.registers
    {
      cpu.Valid()
    }

    /** A fresh CPU and a fresh assembler. */
    constructor ()
      ensures Valid() && fresh(cpu) && fresh(assembler)
      ensures cpu.Snapshot().dp.mem == FreshMemory(256) && cpu.Snapshot().control == Fetch && !cpu.Snapshot().halted
    {
      cpu := new CPU();
      assembler := new Asm.Assembler();
    }

    /** load_machine_code(code, start_addr). */
    method LoadMachineCode(code: seq<seq<int>>, start: int)
      requires Valid() && ByteSized(code)
      modifies cpu.datapath.memory
      ensures Valid()
      ensures cpu.datapath.memory.memory == LoadCode(old(cpu.datapath.memory.memory), code, start)
    {
      hide StoreWord;
      var memory := cpu.datapath.memory;
      ghost var mem0 := memory.memory;
      for i := 0 to |code|
        invariant Valid()
        invariant memory.memory == LoadCode(mem0, code[..i], start)
      {
        assert code[..i + 1][..i] == code[..i];
        StoreInstruction(start + i * 2, code[i]);
      }
      assert code[..|code|] == code;
    }

    /** One iteration of load_machine_code: the low byte at addr, the high byte at addr + 1. */
    method StoreInstruction(addr: int, instruction: seq<int>)
      requires Valid() && (|instruction| == 8 || |instruction| == 16)
      modifies cpu.datapath.memory
      ensures Valid()
      ensures cpu.datapath.memory.memory == StoreWord(old(cpu.datapath.memory.memory), addr, instruction)
    {
      var memory := cpu.datapath.memory;
      var low := if |instruction| <= 8 then instruction else instruction[..8];
      var high := if |instruction| > 8 then instruction[8..] else Zeros(8);
      StoreWordBytes(memory.memory, addr, instruction);
      memory.Write(Digits(addr, 8), low, 1);
      memory.Write(Digits(addr + 1, 8), high, 1);
    }

    /** The data-byte loop of load_program. */
    method LoadDataBytes(data: seq<(int, int)>)
      requires Valid()
      modifies cpu.datapath.memory
      ensures Valid()
      ensures cpu.datapath.memory.memory == LoadData(old(cpu.datapath.memory.memory), data)
    {
      var memory := cpu.datapath.memory;
      ghost var mem0 := memory.memory;
      for k := 0 to |data|
        invariant Valid()
        invariant memory.memory == LoadData(mem0, data[..k])
      {
        assert data[..k + 1][..k] == data[..k];
        var (addr, value) := data[k];
        memory.Write(Digits(addr, 8), Digits(value, 8), 1);
      }
      assert data[..|data|] == data;
    }

    /**
     * load_program(source): assemble, load the words from address 0, then
     * the data bytes. When assembling raises, nothing is loaded.
     */
    method LoadProgram(source: string) returns (ok: bool)
      requires Valid()
      modifies assembler, cpu.datapath.memory
      ensures Valid()
      ensures ok == Asm.AssembleSpec(source).Ok?
      ensures !ok ==> cpu.datapath.memory.memory == old(cpu.datapath.memory.memory)
      ensures ok ==> cpu.datapath.memory.memory == ProgramImage(old(cpu.datapath.memory.memory), source)
    {
      var code := assembler.Assemble(source);
      if code.Fail? {
        return false;
      }
      AssembledWords(source);
      LoadMachineCode(code.value, 0);
      LoadDataBytes(assembler.dataBytes);
      ok := true;
    }

    /** run(max_cycles): step while the budget lasts and step returns True, then dump the state. */
    method Run(maxCycles: int) returns (state: Dump)
      requires Valid()
      modifies cpu, cpu.datapath, cpu.datapath.pc, cpu.datapath.memory, cpu.datapath.regFile.registers, cpu.control.signals, cpu.clock
      ensures Valid()
      ensures cpu.Snapshot() == RunSpec(old(cpu.Snapshot()), maxCycles).0
      ensures state == DumpOf(cpu.Snapshot())
    {
      ghost var total := RunSpec(cpu.Snapshot(), maxCycles);
      ghost var left := maxCycles;
      var cycles := 0;
      while cycles < maxCycles
        invariant Valid() && 0 <= cycles && left == maxCycles - cycles
        invariant total.0 == RunSpec(cpu.Snapshot(), left).0 && total.1 == cycles + RunSpec(cpu.Snapshot(), left).1
        decreases maxCycles - cycles
      {
        ghost var before := cpu.Snapshot();
        var running := cpu.Step();
        left := RunLoopStep(total, before, left, cycles, cpu.Snapshot(), running);
        if !running {
          break;
        }
        cycles := cycles + 1;
      }
      if cycles >= maxCycles {
        RunLoopDone(total, cpu.Snapshot(), left, cycles);
      }
      state := DumpState();
    }

    /** reset(): the CPU's reset. */
    method Reset()
      requires Valid()
      modifies cpu, cpu.datapath.pc, cpu.control, cpu.control.signals
      ensures Valid()
      ensures cpu.Snapshot() == old(cpu.Snapshot()).(dp := old(cpu.Snapshot()).dp.(pc := Zeros(8)), control := Fetch, halted := false, current := None)
    {
      cpu.Reset();
    }

    /** dump_state(): read the state and each register through its three-bit address. */
    method DumpState() returns (state: Dump)
      requires Valid()
      ensures state == DumpOf(cpu.Snapshot())
    {
      var pc := cpu.datapath.GetPc();
      var registers: seq<int> := [];
      ghost var regs := cpu.datapath.regFile.Regs();
      for i := 0 to 8
        invariant |registers| == i
        invariant forall j :: 0 <= j < i ==> registers[j] == Val(FileRead(regs, j))
      {
        RegisterAddress(i);
        var value := cpu.datapath.regFile.Read(Digits(i, 3));
        registers := registers + [Val(value)];
      }
      state := Dump(pc, cpu.datapath.flags, cpu.halted, cpu.clock.cycle, registers);
      assert registers == DumpOf(cpu.Snapshot()).registers;
    }
  }
}
