/**
 * The control unit (solutions/control.py): a four-state machine
 * FETCH -> DECODE -> EXECUTE -> WRITEBACK -> FETCH and a signal table. The
 * unit owns one ControlSignals record; generate_signals clears it, sets the
 * signals of the current state (and, in EXECUTE, of the mnemonic) and hands
 * back that same record.
 */
module Control {
  import opened Bits
  import opened Clock
  import Alu
  import RefAlu
  import Decoder

  /** The states the unit can be in. MEMORY is declared by the source but never entered. */
  datatype State = Fetch | Decode | Execute | Writeback

  /** The mnemonics that drive the ALU, in the order of their ALU codes 0..7. */
  const AluNames: seq<string> := ["ADD", "SUB", "AND", "OR", "XOR", "NOT", "SHL", "SHR"]

  /** alu_ops[name]: the mnemonic's position in AluNames. */
  function AluCode(name: string): (code: int)
    requires name in AluNames
    ensures 0 <= code < 8 && AluNames[code] == name
  {
    if name == "ADD" then 0 else if name == "SUB" then 1 else if name == "AND" then 2
    else if name == "OR" then 3 else if name == "XOR" then 4 else if name == "NOT" then 5
    else if name == "SHL" then 6 else 7
  }

  /** The signals generate_signals leaves in the record, for a state, a mnemonic and the Z flag. */
  function SignalsFor(state: State, opname: string, z: int): (r: Signals)
    ensures |r.aluOp| == 4
  {
    var d := Default();
    match state
    case Fetch => d.(memRead := 1, irLoad := 1)
    case Decode => d
    case Execute =>
      if opname in AluNames then d.(aluOp := Digits(AluCode(opname), 4), regWrite := 1)
      else if opname == "LOAD" then d.(memRead := 1, memToReg := 1)
      else if opname == "STORE" then d.(memWrite := 1)
      else if opname == "MOV" then d.(regWrite := 1)
      else if opname == "JMP" then d.(pcLoad := 1)
      else if opname == "JZ" then (if z == 1 then d.(pcLoad := 1) else d.(pcInc := 1))
      else if opname == "JNZ" then (if z == 0 then d.(pcLoad := 1) else d.(pcInc := 1))
      else d
    case Writeback => d.(pcInc := 1)
  }

  /** next_state: the successor in the four-state cycle. */
  function Next(state: State): State
  {
    match state
    case Fetch => Decode
    case Decode => Execute
    case Execute => Writeback
    case Writeback => Fetch
  }

  // ---------------------------------------------------------------------
  // Properties of the signal table and the state machine
  // ---------------------------------------------------------------------

  /** FETCH asks for a memory read and an instruction-register load, and nothing else; DECODE asks for nothing. */
  lemma FetchDecodeSignals(opname: string, z: int)
    ensures SignalsFor(Fetch, opname, z) == Default().(memRead := 1, irLoad := 1)
    ensures SignalsFor(Decode, opname, z) == Default()
    ensures SignalsFor(Writeback, opname, z) == Default().(pcInc := 1)
  {
  }

  /**
   * In EXECUTE an ALU mnemonic writes a register and selects the ALU
   * operation of the same name: alu_op is the 4-bit code the ALU of either
   * version dispatches on.
   */
  lemma AluOpMatchesAlu(opname: string, z: int)
    requires opname in AluNames
    ensures var s := SignalsFor(Execute, opname, z);
      && s.regWrite == 1 && s.memToReg == 0 && s.memRead == 0 && s.memWrite == 0
      && |s.aluOp| == 4 && IsBits(s.aluOp) && RefAlu.OpVal(s.aluOp) == AluCode(opname)
      && s.aluOp == [Alu.OpAdd, Alu.OpSub, Alu.OpAnd, Alu.OpOr, Alu.OpXor, Alu.OpNot, Alu.OpShl, Alu.OpShr][AluCode(opname)]
  {
    var s := SignalsFor(Execute, opname, z);
    var code := AluCode(opname);
    Pow2Values();
    DigitsValue(code, 4);
    DivModUnique(code, 16, 0, code);
    Val4(s.aluOp);
    RefAlu.OpcodeLiteral(s.aluOp);
  }

  /** Conditional jumps: exactly one of pc_load and pc_inc is set, pc_load when the branch is taken. */
  lemma ConditionalJumps(z: int)
    ensures var s := SignalsFor(Execute, "JZ", z);
      s.pcLoad + s.pcInc == 1 && (s.pcLoad == 1 <==> z == 1)
    ensures var s := SignalsFor(Execute, "JNZ", z);
      s.pcLoad + s.pcInc == 1 && (s.pcLoad == 1 <==> z == 0)
  {
    assert "JZ" !in AluNames && "JNZ" !in AluNames;
  }

  /** LOAD reads memory into a register without raising reg_write; STORE and MOV raise one signal each; JMP loads the PC. */
  lemma MemoryAndMoveSignals(z: int)
    ensures SignalsFor(Execute, "LOAD", z) == Default().(memRead := 1, memToReg := 1)
    ensures SignalsFor(Execute, "STORE", z) == Default().(memWrite := 1)
    ensures SignalsFor(Execute, "MOV", z) == Default().(regWrite := 1)
    ensures SignalsFor(Execute, "JMP", z) == Default().(pcLoad := 1)
  {
    assert "LOAD" !in AluNames && "STORE" !in AluNames && "MOV" !in AluNames && "JMP" !in AluNames;
  }

  /** NOP, HALT and every name outside the table give the all-zero record in EXECUTE. */
  lemma NoSignalsOtherwise(opname: string, z: int)
    requires opname !in AluNames && opname !in ["LOAD", "STORE", "MOV", "JMP", "JZ", "JNZ"]
    ensures SignalsFor(Execute, opname, z) == Default()
  {
  }

  /** The state machine is a 4-cycle: four steps return to the start and no step stays put. */
  lemma NextCycles(state: State)
    ensures Next(Next(Next(Next(state)))) == state
    ensures Next(state) != state
  {
  }

  class ControlUnit {
    var state: State
    const signals: ControlSignals

    constructor ()
      ensures state == Fetch && fresh(signals) && signals.Value() == Default()
    {
      state := Fetch;
      signals := new ControlSignals();
    }

    /** generate_signals(decoded, flags): rewrite the shared record and return it; the state does not move. */
    method GenerateSignals(decoded: Decoder.Decoded, flags: Alu.Flags) returns (s: ControlSignals)
      modifies signals
      ensures s == signals && signals.Value() == SignalsFor(state, decoded.opcodeName, flags.z)
    {
      signals.Reset();
      var opname := decoded.opcodeName;
      if state == Fetch {
        signals.memRead := 1;
        signals.irLoad := 1;
      } else if state == Decode {
      } else if state == Execute {
        if opname in AluNames {
          signals.aluOp := Digits(AluCode(opname), 4);
          signals.regWrite := 1;
        } else if opname == "LOAD" {
          signals.memRead := 1;
          signals.memToReg := 1;
        } else if opname == "STORE" {
          signals.memWrite := 1;
        } else if opname == "MOV" {
          signals.regWrite := 1;
        } else if opname == "JMP" {
          signals.pcLoad := 1;
        } else if opname == "JZ" {
          if flags.z == 1 {
            signals.pcLoad := 1;
          } else {
            signals.pcInc := 1;
          }
        } else if opname == "JNZ" {
          if flags.z == 0 {
            signals.pcLoad := 1;
          } else {
            signals.pcInc := 1;
          }
        }
      } else {
        signals.pcInc := 1;
      }
      s := signals;
    }

    /** next_state(): advance one state and return it. */
    method NextState() returns (r: State)
      modifies this
      ensures state == Next(old(state)) && r == state
    {
      state := Next(state);
      r := state;
    }

    /** reset(): back to FETCH with a cleared record. */
    method Reset()
      modifies this, signals
      ensures state == Fetch && signals.Value() == Default()
    {
      state := Fetch;
      signals.Reset();
    }
  }
}
