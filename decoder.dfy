/**
 * The format-aware instruction decoder (src/computer/decoder.py): the
 * same field split as the ISA's decode, plus the instruction type and the
 * register and operand fields as LSB-first bit lists (three bits for the
 * registers, eight for the operand).
 */
module Decoder {
  import opened Bits
  import Isa

  /** The dictionary InstructionDecoder.decode returns. */
  datatype Decoded = Decoded(
    opcode: int, opcodeName: string, rd: int, rs1: int, rs2Imm: int,
    instructionType: char, rdBits: seq<int>, rs1Bits: seq<int>, rs2Bits: seq<int>)

  /** get_instruction_type: N for NOP/HALT, I for LOAD/STORE, J for jumps, R for the rest (MOV included). */
  function InstructionType(opcode: int): char
  {
    if opcode == 0 || opcode == 15 then 'N'
    else if opcode in [1, 2] then 'I'
    else if opcode in [12, 13, 14] then 'J'
    else 'R'
  }

  /** decode(instruction). */
  function Decode(instruction: seq<int>): Decoded
  {
    var v := Val(instruction);
    var opcode := (v / 4096) % 16;
    var name := Isa.NameOf(opcode);
    var rd := (v / 256) % 16;
    var rs1 := if Isa.HasAddress(name) then 0 else (v / 16) % 16;
    var rs2Imm := if Isa.HasAddress(name) then v % 256 else v % 16;
    Decoded(opcode, name, rd, rs1, rs2Imm, InstructionType(opcode),
            Digits(rd, 3), Digits(rs1, 3), Digits(rs2Imm, 8))
  }

  /** The numeric fields are exactly those of the ISA's decode_instruction. */
  lemma DecodeAgreesWithIsa(instruction: seq<int>)
    ensures var d := Decode(instruction);
      Isa.Fields(d.opcode, d.opcodeName, d.rd, d.rs1, d.rs2Imm) == Isa.Decode(instruction)
  {
  }

  /**
   * On a 16-bit word: the opcode is 0..15 and always named, rd is 0..15, the
   * operand fits its field, and the bit lists hold the low three bits of rd
   * and rs1 (so R8..R15 alias R0..R7) and all eight bits of the operand.
   */
  lemma DecodeFields(instruction: seq<int>)
    requires |instruction| == 16 && IsBits(instruction)
    ensures var d := Decode(instruction);
      && 0 <= d.opcode < 16 && d.opcodeName in Isa.Opcodes && Isa.Opcodes[d.opcodeName] == d.opcode
      && 0 <= d.rd < 16 && 0 <= d.rs1 < 16
      && (if Isa.HasAddress(d.opcodeName) then d.rs1 == 0 && 0 <= d.rs2Imm < 256 else 0 <= d.rs2Imm < 16)
      && |d.rdBits| == 3 && IsBits(d.rdBits) && Val(d.rdBits) == d.rd % 8
      && |d.rs1Bits| == 3 && IsBits(d.rs1Bits) && Val(d.rs1Bits) == d.rs1 % 8
      && |d.rs2Bits| == 8 && IsBits(d.rs2Bits) && Val(d.rs2Bits) == d.rs2Imm
  {
    var d := Decode(instruction);
    Pow2Values();
    Isa.NameOfTotal(d.opcode);
    DigitsValue(d.rd, 3);
    DigitsValue(d.rs1, 3);
    DigitsValue(d.rs2Imm, 8);
    DivModUnique(d.rs2Imm, 256, 0, d.rs2Imm);
  }

  /** Decoding an encoded LOAD, STORE or jump gives back its full 8-bit address. */
  lemma AddressRoundTrip(mnemonic: string, rd: int, rs1: int, address: int)
    requires Isa.HasAddress(Isa.Upper(mnemonic))
    ensures Decode(Isa.Encode(mnemonic, rd, rs1, address)).rs2Imm == address % 256
    ensures Decode(Isa.Encode(mnemonic, rd, rs1, address)).opcodeName == Isa.Upper(mnemonic)
  {
    Isa.EncodeDecode(mnemonic, rd, rs1, address);
    DecodeAgreesWithIsa(Isa.Encode(mnemonic, rd, rs1, address));
  }

  /** The type of each opcode, stated as the sets it partitions 0..15 into. */
  lemma InstructionTypeSpec(opcode: int)
    requires 0 <= opcode < 16
    ensures InstructionType(opcode) == 'N' <==> opcode == 0 || opcode == 15
    ensures InstructionType(opcode) == 'I' <==> opcode == 1 || opcode == 2
    ensures InstructionType(opcode) == 'J' <==> 12 <= opcode <= 14
    ensures InstructionType(opcode) == 'R' <==> 3 <= opcode <= 11
  {
  }

  /** MOV decodes with type 'R', not the 'I' its own documentation lists it under. */
  lemma MovTypedAsRegister(rd: int, rs1: int)
    ensures Decode(Isa.Encode("MOV", rd, rs1, 0)).instructionType == 'R'
  {
    Isa.EncodeDecode("MOV", rd, rs1, 0);
    assert Isa.Upper("MOV") == "MOV";
    DecodeAgreesWithIsa(Isa.Encode("MOV", rd, rs1, 0));
  }
}
