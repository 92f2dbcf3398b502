/**
 * The instruction set (solutions/isa.py; the OPCODES table of
 * src/computer/isa.py is the same). An instruction is sixteen bits, LSB
 * first, with the opcode in bits 15-12. Three formats share the word:
 *   R: opcode | rd (11-8) | rs1 (7-4) | rs2 (3-0)
 *   I: opcode | rd (11-8) | address (7-0)         LOAD, STORE
 *   J: opcode | unused    | address (7-0)         JMP, JZ, JNZ
 */
module Isa {
  import opened Bits

  /** OPCODES: the sixteen mnemonics and their 4-bit codes. */
  const Opcodes: map<string, int> := map[
    "NOP" := 0, "LOAD" := 1, "STORE" := 2, "MOV" := 3,
    "ADD" := 4, "SUB" := 5, "AND" := 6, "OR" := 7,
    "XOR" := 8, "NOT" := 9, "SHL" := 10, "SHR" := 11,
    "JMP" := 12, "JZ" := 13, "JNZ" := 14, "HALT" := 15]

  /** OPCODE_NAMES: the reverse table. */
  const OpcodeNames: map<int, string> := map[
    0 := "NOP", 1 := "LOAD", 2 := "STORE", 3 := "MOV",
    4 := "ADD", 5 := "SUB", 6 := "AND", 7 := "OR",
    8 := "XOR", 9 := "NOT", 10 := "SHL", 11 := "SHR",
    12 := "JMP", 13 := "JZ", 14 := "JNZ", 15 := "HALT"]

  /** OPCODE_NAMES.get(opcode, 'UNKNOWN'). */
  function NameOf(opcode: int): string
  {
    if opcode in OpcodeNames then OpcodeNames[opcode] else "UNKNOWN"
  }

  /** The mnemonics whose low byte is an 8-bit address (I- and J-format). */
  predicate HasAddress(name: string)
  {
    name in ["LOAD", "STORE", "JMP", "JZ", "JNZ"]
  }

  predicate IsJump(name: string)
  {
    name in ["JMP", "JZ", "JNZ"]
  }

  /** str.upper() on the ASCII letters. */
  function Upper(s: string): (r: string)
    ensures |r| == |s|
  {
    seq(|s|, i requires 0 <= i < |s| => if 'a' <= s[i] <= 'z' then (s[i] as int - 32) as char else s[i])
  }

  /** int_to_bits_n(value, n): bit i of value, for i < n. */
  function IntToBitsN(value: int, n: nat): (r: seq<int>)
    ensures |r| == n
  {
    Digits(value, n)
  }

  /** bits_to_int_n(bits). */
  function BitsToIntN(bits: seq<int>): int
  {
    Val(bits)
  }

  /** The integer the encoder packs, before it is split into bits; `|` of disjoint fields is their sum. */
  function EncodeWord(mnemonic: string, rd: int, rs1: int, rs2Imm: int): int
  {
    var name := Upper(mnemonic);
    var op := if name in Opcodes then Opcodes[name] else 0;
    if name in ["LOAD", "STORE"] then
      rs2Imm % 256 + (rd % 16) * 256 + (op % 16) * 4096
    else if IsJump(name) then
      rs2Imm % 256 + (op % 16) * 4096
    else
      rs2Imm % 16 + (rs1 % 16) * 16 + (rd % 16) * 256 + (op % 16) * 4096
  }

  /** encode_instruction(opcode, rd, rs1, rs2_imm). */
  function Encode(mnemonic: string, rd: int, rs1: int, rs2Imm: int): (r: seq<int>)
    ensures |r| == 16
  {
    IntToBitsN(EncodeWord(mnemonic, rd, rs1, rs2Imm), 16)
  }

  /** The fields of a decoded instruction word. */
  datatype Fields = Fields(opcode: int, opcodeName: string, rd: int, rs1: int, rs2Imm: int)

  /** decode_instruction(instruction): Python's `>>` on a non-negative divisor is floor division, as Dafny's `/`. */
  function Decode(instruction: seq<int>): Fields
  {
    var v := BitsToIntN(instruction);
    var opcode := (v / 4096) % 16;
    var name := NameOf(opcode);
    var rd := (v / 256) % 16;
    if HasAddress(name) then Fields(opcode, name, rd, 0, v % 256)
    else Fields(opcode, name, rd, (v / 16) % 16, v % 16)
  }

  // ---------------------------------------------------------------------
  // Properties
  // ---------------------------------------------------------------------

  /** The two tables are inverse bijections between the sixteen names and 0..15. */
  lemma OpcodeTablesInverse()
    ensures forall name :: name in Opcodes ==> 0 <= Opcodes[name] < 16 && OpcodeNames[Opcodes[name]] == name
    ensures forall op :: op in OpcodeNames <==> 0 <= op < 16
    ensures forall op :: op in OpcodeNames ==> OpcodeNames[op] in Opcodes && Opcodes[OpcodeNames[op]] == op
  {
    NamesRoundTrip();
    CodesRoundTrip();
  }

  /** OPCODES then OPCODE_NAMES gives the name back. */
  lemma NamesRoundTrip()
    ensures forall name :: name in Opcodes ==> 0 <= Opcodes[name] < 16 && OpcodeNames[Opcodes[name]] == name
  {
    forall name | name in Opcodes
      ensures 0 <= Opcodes[name] < 16 && OpcodeNames[Opcodes[name]] == name
    {
      assert name in Opcodes.Keys;
    }
  }

  /** OPCODE_NAMES covers exactly 0..15, and OPCODES gives each code back. */
  lemma CodesRoundTrip()
    ensures forall op :: op in OpcodeNames <==> 0 <= op < 16
    ensures forall op :: op in OpcodeNames ==> OpcodeNames[op] in Opcodes && Opcodes[OpcodeNames[op]] == op
  {
    forall op | op in OpcodeNames
      ensures OpcodeNames[op] in Opcodes && Opcodes[OpcodeNames[op]] == op
    {
      if op < 8 {
        if op < 4 {
          assert op == 0 || op == 1 || op == 2 || op == 3;
        } else {
          assert op == 4 || op == 5 || op == 6 || op == 7;
        }
      } else {
        if op < 12 {
          assert op == 8 || op == 9 || op == 10 || op == 11;
        } else {
          assert op == 12 || op == 13 || op == 14 || op == 15;
        }
      }
    }
  }

  /** A known mnemonic has a 4-bit code that names it back. */
  lemma OpcodeOf(name: string)
    requires name in Opcodes
    ensures 0 <= Opcodes[name] < 16 && NameOf(Opcodes[name]) == name
  {
    OpcodeTablesInverse();
  }

  /** Every 4-bit opcode has a name, and only out-of-range values are UNKNOWN. */
  lemma NameOfTotal(op: int)
    ensures 0 <= op < 16 ==> NameOf(op) in Opcodes && Opcodes[NameOf(op)] == op
    ensures NameOf(op) == "UNKNOWN" <==> !(0 <= op < 16)
  {
    OpcodeTablesInverse();
  }

  /** int_to_bits_n and bits_to_int_n round-trip modulo 2^n. */
  lemma BitsNRoundTrip(v: int, n: nat)
    ensures IsBits(IntToBitsN(v, n)) && BitsToIntN(IntToBitsN(v, n)) == v % Pow2(n)
  {
    DigitsValue(v, n);
  }

  /** Splitting an R-format word into its four nibbles. */
  lemma SplitR(op: int, rd: int, rs1: int, rs2: int)
    requires 0 <= op < 16 && 0 <= rd < 16 && 0 <= rs1 < 16 && 0 <= rs2 < 16
    ensures var w := rs2 + rs1 * 16 + rd * 256 + op * 4096;
      && 0 <= w < 65536 && (w / 4096) % 16 == op && (w / 256) % 16 == rd
      && (w / 16) % 16 == rs1 && w % 16 == rs2
  {
    var w := rs2 + rs1 * 16 + rd * 256 + op * 4096;
    DivModUnique(w, 4096, op, rs2 + rs1 * 16 + rd * 256);
    DivModUnique(op, 16, 0, op);
    DivModUnique(w, 256, op * 16 + rd, rs2 + rs1 * 16);
    DivModUnique(op * 16 + rd, 16, op, rd);
    DivModUnique(w, 16, op * 256 + rd * 16 + rs1, rs2);
    DivModUnique(op * 256 + rd * 16 + rs1, 16, op * 16 + rd, rs1);
  }

  /** Splitting an I- or J-format word into opcode, rd and the low byte. */
  lemma SplitI(op: int, rd: int, addr: int)
    requires 0 <= op < 16 && 0 <= rd < 16 && 0 <= addr < 256
    ensures var w := addr + rd * 256 + op * 4096;
      && 0 <= w < 65536 && (w / 4096) % 16 == op && (w / 256) % 16 == rd && w % 256 == addr
  {
    var w := addr + rd * 256 + op * 4096;
    DivModUnique(w, 4096, op, addr + rd * 256);
    DivModUnique(op, 16, 0, op);
    DivModUnique(w, 256, op * 16 + rd, addr);
    DivModUnique(op * 16 + rd, 16, op, rd);
  }

  /** The decoded fields an encoded instruction is expected to give back. */
  function Expected(mnemonic: string, rd: int, rs1: int, rs2Imm: int): Fields
  {
    var name := Upper(mnemonic);
    var op := if name in Opcodes then Opcodes[name] else 0;
    if name in ["LOAD", "STORE"] then Fields(op, name, rd % 16, 0, rs2Imm % 256)
    else if IsJump(name) then Fields(op, name, 0, 0, rs2Imm % 256)
    else Fields(op, NameOf(op), rd % 16, rs1 % 16, rs2Imm % 16)
  }

  /** The encoded word is the packed integer, which fits in sixteen bits. */
  lemma EncodeValue(mnemonic: string, rd: int, rs1: int, rs2Imm: int)
    ensures IsBits(Encode(mnemonic, rd, rs1, rs2Imm))
    ensures 0 <= EncodeWord(mnemonic, rd, rs1, rs2Imm) < 65536
    ensures BitsToIntN(Encode(mnemonic, rd, rs1, rs2Imm)) == EncodeWord(mnemonic, rd, rs1, rs2Imm)
  {
    var w := EncodeWord(mnemonic, rd, rs1, rs2Imm);
    assert 0 <= w < 65536;
    Pow2Sixteen();
    BitsNRoundTrip(w, 16);
    DivModUnique(w, 65536, 0, w);
  }

  /** Decoding a word whose value packs an address-format instruction. */
  lemma DecodeAddressWord(bits: seq<int>, op: int, rd: int, addr: int)
    requires 0 <= op < 16 && 0 <= rd < 16 && 0 <= addr < 256 && HasAddress(NameOf(op))
    requires BitsToIntN(bits) == addr + rd * 256 + op * 4096
    ensures Decode(bits) == Fields(op, NameOf(op), rd, 0, addr)
  {
    SplitI(op, rd, addr);
  }

  /** Decoding a word whose value packs a register-format instruction. */
  lemma DecodeRegisterWord(bits: seq<int>, op: int, rd: int, rs1: int, rs2: int)
    requires 0 <= op < 16 && 0 <= rd < 16 && 0 <= rs1 < 16 && 0 <= rs2 < 16 && !HasAddress(NameOf(op))
    requires BitsToIntN(bits) == rs2 + rs1 * 16 + rd * 256 + op * 4096
    ensures Decode(bits) == Fields(op, NameOf(op), rd, rs1, rs2)
  {
    SplitR(op, rd, rs1, rs2);
  }

  /**
   * Round trip: decoding an encoded instruction gives the upper-cased
   * mnemonic (NOP for an unknown one) and the operands masked to their
   * field widths: rd and the address for LOAD/STORE, the address alone for
   * jumps, and three nibbles otherwise.
   */
  lemma EncodeDecode(mnemonic: string, rd: int, rs1: int, rs2Imm: int)
    ensures IsBits(Encode(mnemonic, rd, rs1, rs2Imm))
    ensures Decode(Encode(mnemonic, rd, rs1, rs2Imm)) == Expected(mnemonic, rd, rs1, rs2Imm)
    ensures Upper(mnemonic) in Opcodes ==> Decode(Encode(mnemonic, rd, rs1, rs2Imm)).opcodeName == Upper(mnemonic)
  {
    var name := Upper(mnemonic);
    var bits := Encode(mnemonic, rd, rs1, rs2Imm);
    EncodeValue(mnemonic, rd, rs1, rs2Imm);
    if name !in Opcodes {
      assert NameOf(0) == "NOP";
      DecodeRegisterWord(bits, 0, rd % 16, rs1 % 16, rs2Imm % 16);
      return;
    }
    var op := Opcodes[name];
    OpcodeOf(name);
    assert op % 16 == op;
    if name in ["LOAD", "STORE"] {
      DecodeAddressWord(bits, op, rd % 16, rs2Imm % 256);
    } else if IsJump(name) {
      DecodeAddressWord(bits, op, 0, rs2Imm % 256);
    } else {
      DecodeRegisterWord(bits, op, rd % 16, rs1 % 16, rs2Imm % 16);
    }
  }

  /** An unknown mnemonic encodes with opcode 0 and decodes as NOP. */
  lemma UnknownMnemonic(mnemonic: string, rd: int, rs1: int, rs2Imm: int)
    requires Upper(mnemonic) !in Opcodes
    ensures Decode(Encode(mnemonic, rd, rs1, rs2Imm)) == Fields(0, "NOP", rd % 16, rs1 % 16, rs2Imm % 16)
  {
    EncodeValue(mnemonic, rd, rs1, rs2Imm);
    assert NameOf(0) == "NOP";
    DecodeRegisterWord(Encode(mnemonic, rd, rs1, rs2Imm), 0, rd % 16, rs1 % 16, rs2Imm % 16);
  }

  /** Val of a 16-bit word splits at bit k into the low k bits and the rest. */
  lemma SplitWord(instruction: seq<int>, k: nat)
    requires IsBits(instruction) && k <= |instruction|
    ensures Val(instruction) == Val(instruction[..k]) + Pow2(k) * Val(instruction[k..])
    ensures 0 <= Val(instruction[..k]) < Pow2(k)
  {
    assert instruction == instruction[..k] + instruction[k..];
    ValAppend(instruction[..k], instruction[k..]);
    ValRange(instruction[..k]);
  }

  /** Decode reads the opcode from bits 15-12, rd from bits 11-8 and the operands from the low byte. */
  lemma DecodeReadsBitFields(instruction: seq<int>)
    requires |instruction| == 16 && IsBits(instruction)
    ensures Decode(instruction).opcode == Val(instruction[12..])
    ensures Decode(instruction).rd == Val(instruction[8..12])
    ensures HasAddress(Decode(instruction).opcodeName) ==> Decode(instruction).rs2Imm == Val(instruction[..8])
    ensures !HasAddress(Decode(instruction).opcodeName) ==>
              Decode(instruction).rs1 == Val(instruction[4..8]) && Decode(instruction).rs2Imm == Val(instruction[..4])
  {
    Pow2Values();
    var v := Val(instruction);
    var lo8 := instruction[..8];
    var hi8 := instruction[8..];
    SplitWord(instruction, 8);
    SplitWord(hi8, 4);
    assert hi8[..4] == instruction[8..12] && hi8[4..] == instruction[12..];
    SplitWord(lo8, 4);
    assert lo8[..4] == instruction[..4] && lo8[4..] == instruction[4..8];
    ValRange(instruction[12..]);
    ValRange(instruction[8..12]);
    ValRange(instruction[4..8]);
    var op := Val(instruction[12..]);
    var rd := Val(instruction[8..12]);
    var rs1 := Val(instruction[4..8]);
    var rs2 := Val(instruction[..4]);
    assert v == rs2 + rs1 * 16 + rd * 256 + op * 4096;
    SplitR(op, rd, rs1, rs2);
    DivModUnique(v, 256, op * 16 + rd, rs2 + rs1 * 16);
  }

  /** A mnemonic outside the table with all fields 0 encodes to the all-zero word. */
  lemma UnknownZeroWord(mnemonic: string)
    requires Upper(mnemonic) !in Opcodes
    ensures Encode(mnemonic, 0, 0, 0) == Zeros(16)
  {
    assert !(Upper(mnemonic) in ["LOAD", "STORE"]) && !IsJump(Upper(mnemonic));
    assert EncodeWord(mnemonic, 0, 0, 0) == 0;
    var w := Encode(mnemonic, 0, 0, 0);
    forall i | 0 <= i < 16
      ensures w[i] == 0
    {
      assert w[i] == (0 / Pow2(i)) % 2;
    }
  }

  /** Upper-casing twice is upper-casing once. */
  lemma UpperIdempotent(s: string)
    ensures Upper(Upper(s)) == Upper(s)
  {
  }

  /** Mnemonics are case-insensitive: the encoder sees only the upper-cased name. */
  lemma EncodeCaseInsensitive(mnemonic: string, rd: int, rs1: int, rs2Imm: int)
    ensures Encode(mnemonic, rd, rs1, rs2Imm) == Encode(Upper(mnemonic), rd, rs1, rs2Imm)
  {
    UpperIdempotent(mnemonic);
  }
}
