/**
 * The reference instruction decoder (solutions/decoder.py), which the CPU
 * uses. It splits every word R-format, so the low byte of a LOAD, STORE or
 * jump comes back as two nibbles, and all three bit lists are four bits.
 */
module RefDecoder {
  import opened Bits
  import Isa
  import Decoder

  /** get_instruction_type: like the src decoder's, but MOV is 'I'. */
  function InstructionType(opcode: int): char
  {
    if opcode == 0 || opcode == 15 then 'N'
    else if opcode in [1, 2, 3] then 'I'
    else if opcode in [12, 13, 14] then 'J'
    else 'R'
  }

  /** decode(instruction). */
  function Decode(instruction: seq<int>): Decoder.Decoded
  {
    var v := Val(instruction);
    var opcode := (v / 4096) % 16;
    var rd := (v / 256) % 16;
    var rs1 := (v / 16) % 16;
    var rs2Imm := v % 16;
    Decoder.Decoded(opcode, Isa.NameOf(opcode), rd, rs1, rs2Imm, InstructionType(opcode),
                    Digits(rd, 4), Digits(rs1, 4), Digits(rs2Imm, 4))
  }

  /** Every numeric field is 0..15 and each bit list is the 4-bit encoding of its field. */
  lemma DecodeFields(instruction: seq<int>)
    ensures var d := Decode(instruction);
      && 0 <= d.opcode < 16 && d.opcodeName in Isa.Opcodes && Isa.Opcodes[d.opcodeName] == d.opcode
      && 0 <= d.rd < 16 && 0 <= d.rs1 < 16 && 0 <= d.rs2Imm < 16
      && |d.rdBits| == 4 && IsBits(d.rdBits) && Val(d.rdBits) == d.rd
      && |d.rs1Bits| == 4 && IsBits(d.rs1Bits) && Val(d.rs1Bits) == d.rs1
      && |d.rs2Bits| == 4 && IsBits(d.rs2Bits) && Val(d.rs2Bits) == d.rs2Imm
  {
    var d := Decode(instruction);
    Pow2Values();
    Isa.NameOfTotal(d.opcode);
    DigitsValue(d.rd, 4);
    DigitsValue(d.rs1, 4);
    DigitsValue(d.rs2Imm, 4);
    DivModUnique(d.rd, 16, 0, d.rd);
    DivModUnique(d.rs1, 16, 0, d.rs1);
    DivModUnique(d.rs2Imm, 16, 0, d.rs2Imm);
  }

  /** On R-format words the two decoders give the same numeric fields and name. */
  lemma DecodersAgreeOnRFormat(instruction: seq<int>)
    requires !Isa.HasAddress(Decode(instruction).opcodeName)
    ensures var d := Decode(instruction);
      var e := Decoder.Decode(instruction);
      d.opcode == e.opcode && d.opcodeName == e.opcodeName && d.rd == e.rd && d.rs1 == e.rs1 && d.rs2Imm == e.rs2Imm
  {
  }

  /**
   * An encoded LOAD, STORE or jump with address a decodes to rs2_imm = a mod 16
   * and rs1 = a div 16 (a taken modulo 256): the address is split in two.
   */
  lemma AddressSplit(mnemonic: string, rd: int, rs1: int, address: int)
    requires Isa.HasAddress(Isa.Upper(mnemonic))
    ensures Decode(Isa.Encode(mnemonic, rd, rs1, address)).rs2Imm == (address % 256) % 16
    ensures Decode(Isa.Encode(mnemonic, rd, rs1, address)).rs1 == (address % 256) / 16
  {
    var w := Isa.Encode(mnemonic, rd, rs1, address);
    Isa.EncodeDecode(mnemonic, rd, rs1, address);
    Isa.DecodeReadsBitFields(w);
    var lo := w[..8];
    Pow2Values();
    Isa.SplitWord(w, 8);
    Isa.SplitWord(lo, 4);
    assert lo[..4] == w[..4] && lo[4..] == w[4..8];
    ValRange(w[4..8]);
    ValRange(w[..4]);
    ValRange(w[8..]);
    var v := Val(w);
    var a := Val(lo);
    assert a == address % 256;
    DivModUnique(a, 16, Val(w[4..8]), Val(w[..4]));
    DivModUnique(v, 16, Val(w[4..8]) + 16 * Val(w[8..]), Val(w[..4]));
    DivModUnique(v / 16, 16, Val(w[8..]), Val(w[4..8]));
  }

  /** LOAD R1, 0x20 decodes with address 0: the high nibble of the address is lost. */
  lemma AddressTruncatedExample()
    ensures Decode(Isa.Encode("LOAD", 1, 0, 32)).rs2Imm == 0
    ensures Decoder.Decode(Isa.Encode("LOAD", 1, 0, 32)).rs2Imm == 32
  {
    hide Isa.Encode;
    hide Decode;
    hide Decoder.Decode;
    assert Isa.Upper("LOAD") == "LOAD";
    AddressSplit("LOAD", 1, 0, 32);
    Decoder.AddressRoundTrip("LOAD", 1, 0, 32);
  }

  /** The type of each opcode, stated as the sets it partitions 0..15 into; MOV (3) is 'I'. */
  lemma InstructionTypeSpec(opcode: int)
    requires 0 <= opcode < 16
    ensures InstructionType(opcode) == 'N' <==> opcode == 0 || opcode == 15
    ensures InstructionType(opcode) == 'I' <==> 1 <= opcode <= 3
    ensures InstructionType(opcode) == 'J' <==> 12 <= opcode <= 14
    ensures InstructionType(opcode) == 'R' <==> 4 <= opcode <= 11
  {
  }
}
