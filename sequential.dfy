/**
 * Latches and flip-flops (solutions/sequential.py). Each Python object
 * whose `__call__`/`clock` overwrites its fields is a class here; each
 * update is specified by a pure function of the old state and the inputs,
 * and the behaviour the circuits promise is proved about those functions.
 */
module Sequential {
  import opened Bits
  import opened Gates

  // ---------------------------------------------------------------------
  // SR latch
  // ---------------------------------------------------------------------

  /** One pass through the cross-coupled NOR pair: (NOR(r, q_bar), NOR(s, q)). */
  function SRPass(q: int, qBar: int, s: int, r: int): (int, int)
  {
    (Nor(r, qBar), Nor(s, q))
  }

  /** The state after `passes` passes of the NOR pair. */
  function SRIterate(q: int, qBar: int, s: int, r: int, passes: nat): (int, int)
  {
    if passes == 0 then (q, qBar)
    else
      var prev := SRIterate(q, qBar, s, r, passes - 1);
      SRPass(prev.0, prev.1, s, r)
  }

  /** The latch's new (q, q_bar) after one call: two passes, as the loop runs. */
  function SRSettle(q: int, qBar: int, s: int, r: int): (int, int)
  {
    SRIterate(q, qBar, s, r, 2)
  }

  /** The latch's consistency: q is a bit and q_bar its complement. */
  predicate SRConsistent(q: int, qBar: int)
  {
    IsBit(q) && qBar == Not(q)
  }

  /**
   * From a consistent state, set (1,0) gives Q = 1, reset (0,1) gives Q = 0,
   * (0,0) holds, and the state stays consistent.
   */
  lemma SRSettleSpec(q: int, qBar: int, s: int, r: int)
    requires SRConsistent(q, qBar) && IsBit(s) && IsBit(r) && !(s == 1 && r == 1)
    ensures SRConsistent(SRSettle(q, qBar, s, r).0, SRSettle(q, qBar, s, r).1)
    ensures SRSettle(q, qBar, s, r).0 == if s == 1 then 1 else if r == 1 then 0 else q
  {
  }

  /** The documented invalid input (1,1) drives both outputs to 0, breaking q_bar = NOT q. */
  lemma SRInvalidInput(q: int, qBar: int)
    ensures SRSettle(q, qBar, 1, 1) == (0, 0)
    ensures !SRConsistent(0, 0)
  {
  }

  class SRLatch {
    var q: int
    var qBar: int

    constructor ()
      ensures q == 0 && qBar == 1 && SRConsistent(q, qBar)
    {
      q := 0;
      qBar := 1;
    }

    /** __call__(s, r): run the NOR pair twice and return Q. */
    method Call(s: int, r: int) returns (out: int)
      modifies this
      ensures (q, qBar) == SRSettle(old(q), old(qBar), s, r)
      ensures out == q
    {
      for i := 0 to 2
        invariant (q, qBar) == SRIterate(old(q), old(qBar), s, r, i)
      {
        var newQ := Nor(r, qBar);
        var newQBar := Nor(s, q);
        q := newQ;
        qBar := newQBar;
      }
      out := q;
    }
  }

  // ---------------------------------------------------------------------
  // Gated SR latch
  // ---------------------------------------------------------------------

  /** The gated latch's effect on its inner latch: s and r are ANDed with enable. */
  function GatedSRSettle(q: int, qBar: int, s: int, r: int, enable: int): (int, int)
  {
    SRSettle(q, qBar, And(s, enable), And(r, enable))
  }

  /** enable = 0 holds a consistent latch; enable = 1 acts as the plain SR latch. */
  lemma GatedSRSpec(q: int, qBar: int, s: int, r: int, enable: int)
    requires SRConsistent(q, qBar) && IsBit(s) && IsBit(r) && IsBit(enable)
    ensures enable == 0 ==> GatedSRSettle(q, qBar, s, r, enable) == (q, qBar)
    ensures enable == 1 ==> GatedSRSettle(q, qBar, s, r, enable) == SRSettle(q, qBar, s, r)
  {
  }

  class GatedSRLatch {
    const srLatch: SRLatch

    constructor ()
      ensures fresh(srLatch) && srLatch.q == 0 && srLatch.qBar == 1
    {
      srLatch := new SRLatch();
    }

    method Call(s: int, r: int, enable: int) returns (out: int)
      modifies srLatch
      ensures (srLatch.q, srLatch.qBar) == GatedSRSettle(old(srLatch.q), old(srLatch.qBar), s, r, enable)
      ensures out == srLatch.q
    {
      var gatedS := And(s, enable);
      var gatedR := And(r, enable);
      out := srLatch.Call(gatedS, gatedR);
    }
  }

  // ---------------------------------------------------------------------
  // D latch
  // ---------------------------------------------------------------------

  /** Level-sensitive: q follows d while enable is exactly 1. */
  function DLatchNext(q: int, d: int, enable: int): int
  {
    if enable == 1 then d else q
  }

  lemma DLatchSpec(q: int, d: int, enable: int)
    ensures enable == 1 ==> DLatchNext(q, d, enable) == d
    ensures enable != 1 ==> DLatchNext(q, d, enable) == q
    ensures DLatchNext(DLatchNext(q, d, enable), d, enable) == DLatchNext(q, d, enable)
  {
  }

  class DLatch {
    var q: int

    constructor ()
      ensures q == 0
    {
      q := 0;
    }

    method Call(d: int, enable: int) returns (out: int)
      modifies this
      ensures q == DLatchNext(old(q), d, enable) && out == q
    {
      if enable == 1 {
        q := d;
      }
      out := q;
    }
  }

  // ---------------------------------------------------------------------
  // Edge-triggered flip-flops
  // ---------------------------------------------------------------------

  /** The state of an edge-triggered flip-flop: its output and the last clock level seen. */
  datatype FlipFlop = FlipFlop(q: int, prevClk: int)

  predicate RisingEdge(ff: FlipFlop, clk: int)
  {
    ff.prevClk == 0 && clk == 1
  }

  /** DFlipFlop.clock: q := d on a rising edge; the clock level is always remembered. */
  function DffClock(ff: FlipFlop, d: int, clk: int): FlipFlop
  {
    FlipFlop(if RisingEdge(ff, clk) then d else ff.q, clk)
  }

  /** q changes only on a rising edge, and then to d; prev_clk always becomes clk. */
  lemma DffClockSpec(ff: FlipFlop, d: int, clk: int)
    ensures DffClock(ff, d, clk).prevClk == clk
    ensures RisingEdge(ff, clk) ==> DffClock(ff, d, clk).q == d
    ensures !RisingEdge(ff, clk) ==> DffClock(ff, d, clk).q == ff.q
  {
  }

  /** A low-then-high pulse stores d whatever the flip-flop held before. */
  lemma DffPulse(ff: FlipFlop, low: int, d: int)
    ensures DffClock(DffClock(ff, low, 0), d, 1) == FlipFlop(d, 1)
  {
  }

  /** Holding the clock high does not re-trigger: a second call at 1 keeps q. */
  lemma DffNoRetrigger(ff: FlipFlop, d1: int, d2: int)
    ensures DffClock(DffClock(ff, d1, 1), d2, 1).q == DffClock(ff, d1, 1).q
  {
  }

  class DFlipFlop {
    var q: int
    var prevClk: int

    constructor ()
      ensures q == 0 && prevClk == 0
    {
      q := 0;
      prevClk := 0;
    }

    function State(): FlipFlop
      reads this
    {
      FlipFlop(q, prevClk)
    }

    method Clock(d: int, clk: int) returns (out: int)
      modifies this
      ensures State() == DffClock(old(State()), d, clk) && out == q
    {
      if prevClk == 0 && clk == 1 {
        q := d;
      }
      prevClk := clk;
      out := q;
    }

    method Read() returns (out: int)
      ensures out == q
    {
      out := q;
    }
  }

  /** JKFlipFlop.clock: on a rising edge hold, reset, set or toggle by (j, k). */
  function JkClock(ff: FlipFlop, j: int, k: int, clk: int): FlipFlop
  {
    var q :=
      if !RisingEdge(ff, clk) then ff.q
      else if j == 0 && k == 0 then ff.q
      else if j == 0 && k == 1 then 0
      else if j == 1 && k == 0 then 1
      else Not(ff.q);
    FlipFlop(q, clk)
  }

  /** The JK characteristic table on a rising edge, and no change off the edge. */
  lemma JkClockSpec(ff: FlipFlop, j: int, k: int, clk: int)
    requires IsBit(ff.q) && IsBit(j) && IsBit(k)
    ensures JkClock(ff, j, k, clk).prevClk == clk
    ensures !RisingEdge(ff, clk) ==> JkClock(ff, j, k, clk).q == ff.q
    ensures RisingEdge(ff, clk) ==>
              JkClock(ff, j, k, clk).q == (if j == 1 && k == 1 then 1 - ff.q else if j == 1 then 1 else if k == 1 then 0 else ff.q)
  {
  }

  class JKFlipFlop {
    var q: int
    var prevClk: int

    constructor ()
      ensures q == 0 && prevClk == 0
    {
      q := 0;
      prevClk := 0;
    }

    function State(): FlipFlop
      reads this
    {
      FlipFlop(q, prevClk)
    }

    method Clock(j: int, k: int, clk: int) returns (out: int)
      modifies this
      ensures State() == JkClock(old(State()), j, k, clk) && out == q
    {
      if prevClk == 0 && clk == 1 {
        if j == 0 && k == 0 {
        } else if j == 0 && k == 1 {
          q := 0;
        } else if j == 1 && k == 0 {
          q := 1;
        } else {
          q := Not(q);
        }
      }
      prevClk := clk;
      out := q;
    }

    method Read() returns (out: int)
      ensures out == q
    {
      out := q;
    }
  }

  /** The T flip-flop is a JK flip-flop with both inputs tied to t. */
  function TClock(ff: FlipFlop, t: int, clk: int): FlipFlop
  {
    JkClock(ff, t, t, clk)
  }

  /** t = 1 toggles on every rising edge, t = 0 holds; a full clock cycle toggles once. */
  lemma TClockSpec(ff: FlipFlop, t: int, clk: int)
    requires IsBit(ff.q) && IsBit(t)
    ensures RisingEdge(ff, clk) && t == 1 ==> TClock(ff, t, clk).q == 1 - ff.q
    ensures t == 0 || !RisingEdge(ff, clk) ==> TClock(ff, t, clk).q == ff.q
    ensures TClock(TClock(ff, 1, 0), 1, 1).q == 1 - ff.q
  {
  }

  class TFlipFlop {
    const jk: JKFlipFlop

    constructor ()
      ensures fresh(jk) && jk.q == 0 && jk.prevClk == 0
    {
      jk := new JKFlipFlop();
    }

    method Clock(t: int, clk: int) returns (out: int)
      modifies jk
      ensures jk.State() == TClock(old(jk.State()), t, clk) && out == jk.q
    {
      out := jk.Clock(t, t, clk);
    }

    method Read() returns (out: int)
      ensures out == jk.q
    {
      out := jk.Read();
    }
  }
}
