/**
 * The RAM (solutions/memory.py): `size` cells, each a list of bits, indexed
 * by the unsigned value of an LSB-first address list. The cell list is the
 * class's one mutable field; read, write and load_program are specified by
 * pure functions on it.
 */
module Memory {
  import opened Bits

  /** read: the cell at idx when 0 <= idx < size, eight zeros otherwise. */
  function MemRead(mem: seq<seq<int>>, idx: int): seq<int>
  {
    if 0 <= idx < |mem| then mem[idx] else Zeros(8)
  }

  /** write: replace the cell at idx when enabled and in range; otherwise nothing changes. */
  function MemWrite(mem: seq<seq<int>>, idx: int, data: seq<int>, enable: int): (r: seq<seq<int>>)
    ensures |r| == |mem|
  {
    if enable == 1 && 0 <= idx < |mem| then mem[idx := data] else mem
  }

  /** load_program: program[i] lands at start + i when that is below size; the rest is dropped. */
  function MemLoad(mem: seq<seq<int>>, program: seq<seq<int>>, start: nat): (r: seq<seq<int>>)
    ensures |r| == |mem|
  {
    seq(|mem|, a requires 0 <= a < |mem| => if start <= a < start + |program| then program[a - start] else mem[a])
  }

  /** A fresh RAM: size cells of eight zeros. */
  function FreshMemory(size: nat): (r: seq<seq<int>>)
    ensures |r| == size
  {
    seq(size, i => Zeros(8))
  }

  /** Every address of a fresh RAM reads eight zeros. */
  lemma FreshMemoryReadsZero(size: nat, idx: int)
    ensures MemRead(FreshMemory(size), idx) == Zeros(8)
  {
  }

  /** After an enabled in-range write the cell reads back the data; every other cell is unchanged. */
  lemma ReadAfterWrite(mem: seq<seq<int>>, idx: int, data: seq<int>, other: int)
    requires 0 <= idx < |mem| && other != idx
    ensures MemRead(MemWrite(mem, idx, data, 1), idx) == data
    ensures MemRead(MemWrite(mem, idx, data, 1), other) == MemRead(mem, other)
  {
  }

  /** A disabled or out-of-range write is a no-op. */
  lemma WriteNoOp(mem: seq<seq<int>>, idx: int, data: seq<int>, enable: int)
    requires enable != 1 || idx < 0 || idx >= |mem|
    ensures MemWrite(mem, idx, data, enable) == mem
  {
  }

  /** Loading the whole program in range puts it, cell for cell, at start. */
  lemma LoadPlacesProgram(mem: seq<seq<int>>, program: seq<seq<int>>, start: nat)
    requires start + |program| <= |mem|
    ensures MemLoad(mem, program, start)[start..start + |program|] == program
    ensures MemLoad(mem, program, start)[..start] == mem[..start]
    ensures MemLoad(mem, program, start)[start + |program|..] == mem[start + |program|..]
  {
  }

  /** Loading one more byte: the prefix load followed by one in-range write. */
  lemma MemLoadStep(mem: seq<seq<int>>, program: seq<seq<int>>, start: nat, i: nat)
    requires i < |program|
    ensures MemLoad(mem, program[..i + 1], start) ==
      if start + i < |mem| then MemLoad(mem, program[..i], start)[start + i := program[i]]
      else MemLoad(mem, program[..i], start)
  {
  }

  class RAM {
    const size: nat
    var memory: seq<seq<int>>

    predicate Valid()
      reads this
    {
      |memory| == size
    }

    constructor (size: nat)
      ensures this.size == size && memory == FreshMemory(size) && Valid()
    {
      this.size := size;
      memory := FreshMemory(size);
    }

    method Read(address: seq<int>) returns (out: seq<int>)
      requires Valid()
      ensures out == MemRead(memory, Val(address))
    {
      var idx := Val(address);
      if 0 <= idx < size {
        out := memory[idx];
      } else {
        out := Zeros(8);
      }
    }

    method Write(address: seq<int>, data: seq<int>, enable: int)
      requires Valid()
      modifies this
      ensures Valid()
      ensures memory == MemWrite(old(memory), Val(address), data, enable)
    {
      if enable == 1 {
        var idx := Val(address);
        if 0 <= idx < size {
          memory := memory[idx := data];
        }
      }
    }

    /** load_program(program, start_addr), for a non-negative start address. */
    method LoadProgram(program: seq<seq<int>>, start: nat)
      requires Valid()
      modifies this
      ensures Valid()
      ensures memory == MemLoad(old(memory), program, start)
    {
      for i := 0 to |program|
        invariant Valid()
        invariant memory == MemLoad(old(memory), program[..i], start)
      {
        MemLoadStep(old(memory), program, start, i);
        var addr := start + i;
        if addr < size {
          memory := memory[addr := program[i]];
        }
      }
      assert program[..|program|] == program;
    }
  }
}
