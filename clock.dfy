/**
 * The clock and the control-signal record (solutions/clock.py). The clock
 * toggles a state bit on every tick and counts a cycle on each 1 -> 0
 * transition. ControlSignals is a plain record of thirteen fields that its
 * `reset` clears.
 */
module Clock {

  /** One tick from (state, cycle): flip the state, count a cycle when it falls back to 0. */
  function TickNext(state: int, cycle: int): (int, int)
  {
    var s := 1 - state;
    (s, if s == 0 then cycle + 1 else cycle)
  }

  /** The (state, cycle) pair after n ticks from reset. */
  function Ticks(n: nat): (int, int)
  {
    if n == 0 then (0, 0) else TickNext(Ticks(n - 1).0, Ticks(n - 1).1)
  }

  /** After n ticks from reset the state is n mod 2 and the cycle count n div 2. */
  lemma {:induction false} TicksFromReset(n: nat)
    ensures Ticks(n) == (n % 2, n / 2)
  {
    if n > 0 {
      TicksFromReset(n - 1);
    }
  }

  /** A tick keeps the state a bit and never lowers the cycle count. */
  lemma TickKeepsBit(state: int, cycle: int)
    requires state == 0 || state == 1
    ensures var (s, c) := TickNext(state, cycle);
      (s == 0 || s == 1) && s != state && (c == cycle + 1 <==> state == 1) && (c == cycle <==> state == 0)
  {
  }

  class Clock {
    var cycle: int
    var state: int

    constructor ()
      ensures cycle == 0 && state == 0
    {
      cycle := 0;
      state := 0;
    }

    /** tick(): advance half a cycle and return the cycle count. */
    method Tick() returns (c: int)
      modifies this
      ensures (state, cycle) == TickNext(old(state), old(cycle)) && c == cycle
    {
      state := 1 - state;
      if state == 0 {
        cycle := cycle + 1;
      }
      c := cycle;
    }

    method Reset()
      modifies this
      ensures cycle == 0 && state == 0
    {
      cycle := 0;
      state := 0;
    }

    method GetState() returns (s: int)
      ensures s == state
    {
      s := state;
    }
  }

  /** The thirteen control signals as a value. */
  datatype Signals = Signals(
    pcLoad: int, pcInc: int, pcReset: int, memRead: int, memWrite: int, regWrite: int,
    regReadA: int, regReadB: int, aluOp: seq<int>, irLoad: int, aluSrcB: int, regDst: int, memToReg: int)

  /** Every signal 0 and alu_op = [0, 0, 0, 0]. */
  function Default(): Signals
  {
    Signals(0, 0, 0, 0, 0, 0, 0, 0, [0, 0, 0, 0], 0, 0, 0, 0)
  }

  /** The seven signals to_dict reports. */
  datatype SignalsDict = SignalsDict(
    pcLoad: int, pcInc: int, memRead: int, memWrite: int, regWrite: int, aluOp: seq<int>, irLoad: int)

  class ControlSignals {
    var pcLoad: int
    var pcInc: int
    var pcReset: int
    var memRead: int
    var memWrite: int
    var regWrite: int
    var regReadA: int
    var regReadB: int
    var aluOp: seq<int>
    var irLoad: int
    var aluSrcB: int
    var regDst: int
    var memToReg: int

    /** The record's current contents. */
    function Value(): Signals
      reads this
    {
      Signals(pcLoad, pcInc, pcReset, memRead, memWrite, regWrite,
              regReadA, regReadB, aluOp, irLoad, aluSrcB, regDst, memToReg)
    }

    constructor ()
      ensures Value() == Default()
    {
      pcLoad, pcInc, pcReset, memRead, memWrite, regWrite := 0, 0, 0, 0, 0, 0;
      regReadA, regReadB, aluOp, irLoad := 0, 0, [0, 0, 0, 0], 0;
      aluSrcB, regDst, memToReg := 0, 0, 0;
    }

    /** reset(): every field back to its initial value. */
    method Reset()
      modifies this
      ensures Value() == Default()
    {
      pcLoad, pcInc, pcReset, memRead, memWrite, regWrite := 0, 0, 0, 0, 0, 0;
      regReadA, regReadB, aluOp, irLoad := 0, 0, [0, 0, 0, 0], 0;
      aluSrcB, regDst, memToReg := 0, 0, 0;
    }

    /** to_dict(): the seven reported signals with their current values. */
    method ToDict() returns (d: SignalsDict)
      ensures d == SignalsDict(pcLoad, pcInc, memRead, memWrite, regWrite, aluOp, irLoad)
    {
      d := SignalsDict(pcLoad, pcInc, memRead, memWrite, regWrite, aluOp, irLoad);
    }
  }
}
