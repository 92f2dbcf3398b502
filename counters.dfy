/**
 * The binary counter and the program counter (src/computer/counters.py;
 * solutions/counters.py holds the same code). Both increment through the
 * 8-bit ripple adder, and both ignore their `clk` argument: every call acts.
 */
module Counters {
  import opened Bits
  import opened Adders
  import opened Wrappers

  /** The constant [1, 0, 0, 0, 0, 0, 0, 0] added by both counters. */
  function One(): seq<int>
  {
    [1, 0, 0, 0, 0, 0, 0, 0]
  }

  /** Add one through the ripple-carry adder, dropping the carry. */
  function Increment(v: seq<int>): (r: seq<int>)
    requires |v| >= 8
    ensures |r| == 8
  {
    Ripple(v, One(), 0, 8).0
  }

  /** On a byte, Increment is +1 modulo 256. */
  lemma IncrementValue(v: seq<int>)
    requires |v| == 8 && IsBits(v)
    ensures IsBits(Increment(v)) && Val(Increment(v)) == (Val(v) + 1) % 256
  {
    hide Ripple;
    var one := One();
    Val8(one);
    assert IsBits(one);
    RippleMod(v, one, 0, 8);
    Pow2Eight();
  }

  /** 255 + 1 wraps to 0. */
  lemma IncrementWraps()
    ensures Increment([1, 1, 1, 1, 1, 1, 1, 1]) == Zeros(8)
  {
    AddWrapExample();
  }

  /** BinaryCounter8.clock: reset wins over enable; enable adds one; otherwise hold. */
  function CounterNext(count: seq<int>, enable: int, reset: int): (r: seq<int>)
    requires |count| == 8
    ensures |r| == 8
  {
    if reset == 1 then Zeros(8)
    else if enable == 1 then Increment(count)
    else count
  }

  /** The counter after n enabled clocks from c. */
  function CountUp(count: seq<int>, n: nat): (r: seq<int>)
    requires |count| == 8
    ensures |r| == 8
  {
    if n == 0 then count else CounterNext(CountUp(count, n - 1), 1, 0)
  }

  /** n enabled clocks from a byte c give (c + n) mod 256. */
  lemma {:induction false} CountUpValue(count: seq<int>, n: nat)
    requires |count| == 8 && IsBits(count)
    ensures IsBits(CountUp(count, n)) && Val(CountUp(count, n)) == (Val(count) + n) % 256
  {
    if n > 0 {
      CountUpValue(count, n - 1);
      var prev := CountUp(count, n - 1);
      IncrementValue(prev);
      assert CountUp(count, n) == Increment(prev);
      var m := Val(count) + n - 1;
      assert (m % 256 + 1) % 256 == (m + 1) % 256 by {
        DivModUnique(m, 256, m / 256, m % 256);
        if m % 256 == 255 {
          DivModUnique(m + 1, 256, m / 256 + 1, 0);
        } else {
          DivModUnique(m + 1, 256, m / 256, m % 256 + 1);
        }
      }
    } else {
      ValRange(count);
      Pow2Values();
      DivModUnique(Val(count), 256, 0, Val(count));
    }
  }

  /** The counter's partner facts: reset clears, a disabled clock holds. */
  lemma CounterNextSpec(count: seq<int>, enable: int, reset: int)
    requires |count| == 8 && IsBits(count)
    ensures reset == 1 ==> Val(CounterNext(count, enable, reset)) == 0
    ensures reset != 1 && enable != 1 ==> CounterNext(count, enable, reset) == count
    ensures reset != 1 && enable == 1 ==> Val(CounterNext(count, enable, reset)) == (Val(count) + 1) % 256
  {
    ValZeros(8);
    if reset != 1 && enable == 1 {
      IncrementValue(count);
    }
  }

  class BinaryCounter8 {
    var count: seq<int>

    /** The counter always holds eight bits. */
    predicate Valid()
      reads this
    {
      |count| == 8 && IsBits(count)
    }

    constructor ()
      ensures count == Zeros(8) && Valid()
    {
      count := Zeros(8);
    }

    method Clock(enable: int, reset: int, clk: int) returns (out: seq<int>)
      requires Valid()
      modifies this
      ensures Valid()
      ensures count == CounterNext(old(count), enable, reset) && out == count
    {
      if reset == 1 {
        count := Zeros(8);
      } else if enable == 1 {
        IncrementValue(count);
        count := Ripple(count, One(), 0, 8).0;
      }
      out := count;
    }

    method Read() returns (out: seq<int>)
      ensures out == count
    {
      out := count;
    }
  }

  /**
   * ProgramCounter.clock: reset > load > increment > hold. A load copies
   * load_value as it is, whatever its length. Incrementing a PC shorter than
   * eight bits raises IndexError inside the adder before the PC is assigned,
   * so the PC keeps its value.
   */
  function PcNext(value: seq<int>, load: int, loadValue: seq<int>, increment: int, reset: int): seq<int>
  {
    if reset == 1 then Zeros(8)
    else if load == 1 then loadValue
    else if increment == 1 then (if |value| >= 8 then Increment(value) else value)
    else value
  }

  /** ProgramCounter.clock raises IndexError exactly when it increments a PC of fewer than eight bits. */
  predicate PcRaises(value: seq<int>, load: int, increment: int, reset: int)
  {
    reset != 1 && load != 1 && increment == 1 && |value| < 8
  }

  /** The priority order, stated case by case on a byte-sized PC. */
  lemma PcNextPriority(value: seq<int>, load: int, loadValue: seq<int>, increment: int, reset: int)
    requires |value| == 8 && IsBits(value)
    ensures reset == 1 ==> PcNext(value, load, loadValue, increment, reset) == Zeros(8)
    ensures reset != 1 && load == 1 ==> PcNext(value, load, loadValue, increment, reset) == loadValue
    ensures reset != 1 && load != 1 && increment == 1 ==>
              Val(PcNext(value, load, loadValue, increment, reset)) == (Val(value) + 1) % 256
    ensures reset != 1 && load != 1 && increment != 1 ==> PcNext(value, load, loadValue, increment, reset) == value
  {
    if reset != 1 && load != 1 && increment == 1 {
      IncrementValue(value);
    }
  }

  /**
   * A load accepts a list of any length. After a load of fewer than eight
   * bits the next increment raises and the PC keeps that list; a reset
   * brings it back to eight zero bits.
   */
  lemma ShortLoadThenIncrement(value: seq<int>, short: seq<int>)
    requires |short| < 8
    ensures PcNext(value, 1, short, 0, 0) == short && !PcRaises(value, 1, 0, 0)
    ensures PcRaises(short, 0, 1, 0) && PcNext(short, 0, Zeros(8), 1, 0) == short
    ensures PcNext(short, 0, Zeros(8), 0, 1) == Zeros(8)
  {
  }

  class ProgramCounter {
    var value: seq<int>

    constructor ()
      ensures value == Zeros(8)
    {
      value := Zeros(8);
    }

    /** clock(load, load_value, increment, reset, clk): the PC update, or IndexError when a short PC is incremented. */
    method Clock(load: int, loadValue: seq<int>, increment: int, reset: int, clk: int) returns (out: Result<seq<int>>)
      modifies this
      ensures value == PcNext(old(value), load, loadValue, increment, reset)
      ensures out == if PcRaises(old(value), load, increment, reset) then Fail("IndexError: list index out of range") else Ok(value)
    {
      if reset == 1 {
        value := Zeros(8);
      } else if load == 1 {
        value := loadValue;
      } else if increment == 1 {
        if |value| < 8 {
          out := Fail("IndexError: list index out of range");
          return;
        }
        value := Ripple(value, One(), 0, 8).0;
      }
      out := Ok(value);
    }

    method Read() returns (out: seq<int>)
      ensures out == value
    {
      out := value;
    }
  }
}
